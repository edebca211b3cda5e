/**
 * The dialog side of the plugin: the trigger click handler that shows the
 * overlay and popup and arms the two buttons (jquery.modalconfirm.js:83-133),
 * the confirm and deny button handlers (lines 92-103) and `hide`
 * (lines 138-141).
 *
 * What the handlers do to the page is recorded as a log of effects, in the
 * order the source performs them; the displays of the overlay and popup are
 * also kept as fields and are always what replaying the log gives.
 */
module Dialog {
  import opened Callbacks
  import opened Configuration
  import opened Decisions

  /** An element as the plugin looks it up: `$('#'+id)`,
      `overlay.children(':first')`, or `scope.find('#'+id)`. */
  datatype Element = ById(id: string) | FirstChildOf(parentId: string) | FindIn(scope: Element, id: string)

  /** The inline `display` style the plugin writes. */
  datatype Display = DisplayNone | DisplayBlock

  /** The user callbacks, as named in the settings. */
  datatype Hook = DoCheck | PreShow | OnCheckFail | OnConfirm | OnDeny

  /** A click handler registered on a dialog button. Each closure hides the
      captured overlay and popup, then evaluates its captured callback. */
  datatype Handler = ConfirmHandler(onConfirm: Callback) | DenyHandler(onDeny: Callback)

  /** One step the plugin takes on the page or on user code. */
  datatype Effect =
    | SetDisplay(target: Element, display: Display)
    | SetName(target: Element, name: string)
    | Register(target: Element, handler: Handler)
    | Invoke(hook: Hook)

  /** The displays of the overlay and the popup. */
  datatype Screen = Screen(overlay: Display, popup: Display)

  // ----- Element resolution -----

  function OverlayOf(s: Settings): Element {
    ById(s.overlayID)
  }

  /** `(settings.popupID) ? $('#'+popupID) : overlay.children(':first')`:
      a null or empty popupID is falsy. */
  function PopupOf(s: Settings): (e: Element)
    ensures (s.popupID.Some? && s.popupID.value != "") <==> e.ById?
    ensures e.ById? ==> e.id == s.popupID.value
    ensures !e.ById? ==> e == FirstChildOf(s.overlayID)
  {
    match s.popupID
    case Some(id) => if id != "" then ById(id) else FirstChildOf(s.overlayID)
    case None => FirstChildOf(s.overlayID)
  }

  /** The buttons are looked up inside the popup. */
  function ConfirmButtonOf(s: Settings): Element {
    FindIn(PopupOf(s), s.confirmBtnID)
  }

  function DenyButtonOf(s: Settings): Element {
    FindIn(PopupOf(s), s.denyBtnID)
  }

  // ----- The effects of each handler, in source order -----

  /** `$.isFunction(c) && c.call(...)`: the hook is invoked only when it is a function. */
  function HookCall(c: Callback, h: Hook): seq<Effect> {
    if IsFunction(c) then [Invoke(h)] else []
  }

  /** The steps between showing the overlay and showing the popup, lines
      91-107: name copied onto the confirm button, one handler appended to
      each button, preShow. */
  function ShowMiddle(s: Settings, name: string): seq<Effect> {
    [ SetName(ConfirmButtonOf(s), name),
      Register(ConfirmButtonOf(s), ConfirmHandler(s.onConfirm)),
      Register(DenyButtonOf(s), DenyHandler(s.onDeny)) ]
    + HookCall(s.preShow, PreShow)
  }

  /** The show path, lines 85-119: overlay shown, the middle steps, popup shown. */
  function ShowEffects(s: Settings, name: string): seq<Effect> {
    [SetDisplay(OverlayOf(s), DisplayBlock)] + ShowMiddle(s, name) + [SetDisplay(PopupOf(s), DisplayBlock)]
  }

  /** The check-fail path, lines 121-131. */
  function FailEffects(s: Settings): (r: seq<Effect>)
    ensures |r| <= 1
    ensures forall j :: 0 <= j < |r| ==> r[j].Invoke? && r[j].hook != DoCheck && r[j].hook != PreShow
  {
    if Truthy(s.onCheckFail) then
      if IsFunction(s.onCheckFail) then [Invoke(OnCheckFail)] else HookCall(s.onConfirm, OnConfirm)
    else
      HookCall(s.onDeny, OnDeny)
  }

  /** Everything a click on a trigger element named `name` does. */
  function TriggerEffects(s: Settings, name: string): (r: seq<Effect>)
    ensures (exists j :: 0 <= j < |r| && r[j].SetDisplay?) <==> CheckPasses(s.doCheck)
  {
    var check := HookCall(s.doCheck, DoCheck);
    var rest := if CheckPasses(s.doCheck) then ShowEffects(s, name) else FailEffects(s);
    assert CheckPasses(s.doCheck) ==> (check + rest)[|check|].SetDisplay?;
    assert !CheckPasses(s.doCheck) ==> forall j :: 0 <= j < |check + rest| ==> (check + rest)[j].Invoke?;
    check + rest
  }

  /** `hide(overlay, popup)`: the popup first, then the overlay. */
  function HideEffects(s: Settings): seq<Effect> {
    [SetDisplay(PopupOf(s), DisplayNone), SetDisplay(OverlayOf(s), DisplayNone)]
  }

  /** What one registered button handler does when it runs. */
  function RunEffects(s: Settings, h: Handler): seq<Effect> {
    HideEffects(s) +
    match h
    case ConfirmHandler(c) => HookCall(c, OnConfirm)
    case DenyHandler(c) => HookCall(c, OnDeny)
  }

  /** What a handler returns to jQuery: the confirm verdict, or nothing
      (undefined) for the deny handler. */
  function Returned(h: Handler): (r: Option<bool>)
    ensures r.Some? <==> h.ConfirmHandler?
    ensures r == Some(false) <==> h.ConfirmHandler? && (h.onConfirm == Fn(false) || h.onConfirm == Fixed(false))
  {
    match h
    case ConfirmHandler(c) => Some(ConfirmVerdict(c))
    case DenyHandler(_) => None
  }

  /** jQuery runs every handler bound to the clicked button, in the order
      they were bound. */
  function RunAll(s: Settings, hs: seq<Handler>): seq<Effect> {
    if hs == [] then [] else RunAll(s, hs[..|hs| - 1]) + RunEffects(s, hs[|hs| - 1])
  }

  /** jQuery prevents the button's default action when some handler
      returned false. */
  predicate Prevents(hs: seq<Handler>) {
    exists j :: 0 <= j < |hs| && Returned(hs[j]) == Some(false)
  }

  lemma PreventsStep(hs: seq<Handler>, i: nat)
    requires i < |hs|
    ensures Prevents(hs[..i + 1]) == (Prevents(hs[..i]) || Returned(hs[i]) == Some(false))
  {
    var p := hs[..i + 1];
    if Prevents(p) && !(Returned(hs[i]) == Some(false)) {
      var j :| 0 <= j < |p| && Returned(p[j]) == Some(false);
      assert hs[..i][j] == p[j];
    }
    if Prevents(hs[..i]) {
      var j :| 0 <= j < i && Returned(hs[..i][j]) == Some(false);
      assert p[j] == hs[..i][j];
    }
    if Returned(hs[i]) == Some(false) {
      assert p[i] == hs[i];
    }
  }

  // ----- Counting effects -----

  function Count(log: seq<Effect>, e: Effect): nat {
    if log == [] then 0 else Count(log[..|log| - 1], e) + (if log[|log| - 1] == e then 1 else 0)
  }

  lemma {:induction false} CountAppend(a: seq<Effect>, b: seq<Effect>, e: Effect)
    ensures Count(a + b, e) == Count(a, e) + Count(b, e)
    decreases |b|
  {
    if b == [] {
      assert a + b == a;
    } else {
      assert (a + b)[..|a + b| - 1] == a + b[..|b| - 1];
      CountAppend(a, b[..|b| - 1], e);
    }
  }

  /** A one-step log holds an effect once if that step is the effect, and
      not at all otherwise. */
  lemma CountOne(x: Effect, e: Effect)
    ensures Count([x], e) == (if x == e then 1 else 0)
  {
    assert [x][..0] == [];
  }

  lemma RunAllStep(s: Settings, hs: seq<Handler>, i: nat)
    requires i < |hs|
    ensures RunAll(s, hs[..i + 1]) == RunAll(s, hs[..i]) + RunEffects(s, hs[i])
  {
    assert hs[..i + 1][..i] == hs[..i];
  }

  lemma MulSucc(n: nat, c: nat)
    ensures (n + 1) * c == n * c + c
  {
  }

  /** The handlers on one button are run once each: an effect of a handler
      occurs as many times as there are copies of that handler. */
  lemma {:induction false} CountRunAll(s: Settings, hs: seq<Handler>, h: Handler, e: Effect)
    requires forall j :: 0 <= j < |hs| ==> hs[j] == h
    ensures Count(RunAll(s, hs), e) == |hs| * Count(RunEffects(s, h), e)
    decreases |hs|
  {
    if hs != [] {
      var init := hs[..|hs| - 1];
      var run := RunEffects(s, h);
      assert hs[|hs| - 1] == h;
      assert RunAll(s, hs) == RunAll(s, init) + run;
      CountRunAll(s, init, h, e);
      CountAppend(RunAll(s, init), run, e);
      MulSucc(|init|, Count(run, e));
    }
  }

  /** A confirm handler calls onConfirm once if it is a function and never
      calls onDeny; a deny handler the other way round. */
  lemma HandlerCalls(s: Settings, c: Callback)
    ensures Count(RunEffects(s, ConfirmHandler(c)), Invoke(OnConfirm)) == (if IsFunction(c) then 1 else 0)
    ensures Count(RunEffects(s, ConfirmHandler(c)), Invoke(OnDeny)) == 0
    ensures Count(RunEffects(s, DenyHandler(c)), Invoke(OnDeny)) == (if IsFunction(c) then 1 else 0)
    ensures Count(RunEffects(s, DenyHandler(c)), Invoke(OnConfirm)) == 0
  {
    var hiding := HideEffects(s);
    var e1, e2 := hiding[0], hiding[1];
    assert hiding == [e1] + [e2];
    forall e: Effect | e.Invoke?
      ensures Count(hiding, e) == 0
    {
      CountOne(e1, e);
      CountOne(e2, e);
      CountAppend([e1], [e2], e);
    }
    CountOne(Invoke(OnConfirm), Invoke(OnConfirm));
    CountOne(Invoke(OnConfirm), Invoke(OnDeny));
    CountOne(Invoke(OnDeny), Invoke(OnDeny));
    CountOne(Invoke(OnDeny), Invoke(OnConfirm));
    CountAppend(hiding, HookCall(c, OnConfirm), Invoke(OnConfirm));
    CountAppend(hiding, HookCall(c, OnConfirm), Invoke(OnDeny));
    CountAppend(hiding, HookCall(c, OnDeny), Invoke(OnDeny));
    CountAppend(hiding, HookCall(c, OnDeny), Invoke(OnConfirm));
  }

  /** Clicking confirm after the dialog was shown `n` times calls an onConfirm
      function `n` times and never calls onDeny; clicking deny calls an onDeny
      function `n` times and never calls onConfirm. */
  lemma ClickCallsEachHandlerOnce(s: Settings, hs: seq<Handler>, h: Handler)
    requires h == ConfirmHandler(s.onConfirm) || h == DenyHandler(s.onDeny)
    requires forall j :: 0 <= j < |hs| ==> hs[j] == h
    ensures h.ConfirmHandler? ==>
      Count(RunAll(s, hs), Invoke(OnConfirm)) == (if IsFunction(s.onConfirm) then |hs| else 0) &&
      Count(RunAll(s, hs), Invoke(OnDeny)) == 0
    ensures h.DenyHandler? ==>
      Count(RunAll(s, hs), Invoke(OnDeny)) == (if IsFunction(s.onDeny) then |hs| else 0) &&
      Count(RunAll(s, hs), Invoke(OnConfirm)) == 0
  {
    CountRunAll(s, hs, h, Invoke(OnConfirm));
    CountRunAll(s, hs, h, Invoke(OnDeny));
    if h.ConfirmHandler? {
      HandlerCalls(s, s.onConfirm);
    } else {
      HandlerCalls(s, s.onDeny);
    }
  }

  /** The confirm button's default action is prevented exactly when at least
      one handler is bound and the onConfirm verdict is false; the deny
      button's never is. */
  lemma PreventsOnlyOnFalseVerdict(hs: seq<Handler>, h: Handler)
    requires forall j :: 0 <= j < |hs| ==> hs[j] == h
    ensures h.ConfirmHandler? ==> (Prevents(hs) <==> |hs| > 0 && !ConfirmVerdict(h.onConfirm))
    ensures h.DenyHandler? ==> !Prevents(hs)
  {
    if h.ConfirmHandler? && |hs| > 0 && !ConfirmVerdict(h.onConfirm) {
      assert Returned(hs[0]) == Some(false);
    }
  }

  // ----- What the page shows -----

  /** The effect of one step on the two displays. */
  function Apply(s: Settings, st: Screen, e: Effect): Screen {
    match e
    case SetDisplay(t, d) =>
      Screen(if t == OverlayOf(s) then d else st.overlay, if t == PopupOf(s) then d else st.popup)
    case _ => st
  }

  function Replay(s: Settings, st: Screen, log: seq<Effect>): Screen
    decreases |log|
  {
    if log == [] then st else Replay(s, Apply(s, st, log[0]), log[1..])
  }

  /** The popup is never visible over a hidden overlay. */
  predicate Layered(st: Screen) {
    st.popup == DisplayBlock ==> st.overlay == DisplayBlock
  }

  /** Every intermediate screen while the steps run is layered. */
  predicate Safe(s: Settings, st: Screen, log: seq<Effect>)
    decreases |log|
  {
    Layered(st) && (log != [] ==> Safe(s, Apply(s, st, log[0]), log[1..]))
  }

  lemma {:induction false} ReplayAppend(s: Settings, st: Screen, a: seq<Effect>, b: seq<Effect>)
    ensures Replay(s, st, a + b) == Replay(s, Replay(s, st, a), b)
    decreases |a|
  {
    if a == [] {
      assert a + b == b;
    } else {
      assert (a + b)[1..] == a[1..] + b;
      ReplayAppend(s, Apply(s, st, a[0]), a[1..], b);
    }
  }

  lemma {:induction false} SafeAppend(s: Settings, st: Screen, a: seq<Effect>, b: seq<Effect>)
    requires Safe(s, st, a) && Safe(s, Replay(s, st, a), b)
    ensures Safe(s, st, a + b)
    decreases |a|
  {
    if a == [] {
      assert a + b == b;
    } else {
      assert (a + b)[1..] == a[1..] + b;
      SafeAppend(s, Apply(s, st, a[0]), a[1..], b);
    }
  }

  /** Steps that touch no display leave the screen as it is. */
  lemma {:induction false} ReplayIgnoresInert(s: Settings, st: Screen, log: seq<Effect>)
    requires forall j :: 0 <= j < |log| ==> !log[j].SetDisplay?
    ensures Replay(s, st, log) == st
    decreases |log|
  {
    if log != [] {
      ReplayIgnoresInert(s, st, log[1..]);
    }
  }

  /** ... and keep a layered screen layered at every step. */
  lemma {:induction false} InertSteps(s: Settings, st: Screen, log: seq<Effect>)
    requires Layered(st)
    requires forall j :: 0 <= j < |log| ==> !log[j].SetDisplay?
    ensures Safe(s, st, log) && Replay(s, st, log) == st
    decreases |log|
  {
    ReplayIgnoresInert(s, st, log);
    if log != [] {
      InertSteps(s, st, log[1..]);
    }
  }

  /** One step on its own. */
  lemma OneStep(s: Settings, st: Screen, e: Effect)
    requires Layered(st) && Layered(Apply(s, st, e))
    ensures Safe(s, st, [e]) && Replay(s, st, [e]) == Apply(s, st, e)
  {
    assert [e][1..] == [];
  }

  /** The trigger handler never lets the popup be visible over a hidden
      overlay, at any point: the overlay is shown before the popup. */
  lemma TriggerIsSafe(s: Settings, st: Screen, name: string)
    requires Layered(st)
    ensures Safe(s, st, TriggerEffects(s, name))
  {
    var check := HookCall(s.doCheck, DoCheck);
    InertSteps(s, st, check);
    if CheckPasses(s.doCheck) {
      var overlayOn := SetDisplay(OverlayOf(s), DisplayBlock);
      var st1 := Apply(s, st, overlayOn);
      OneStep(s, st, overlayOn);
      var middle := ShowMiddle(s, name);
      InertSteps(s, st1, middle);
      var popupOn := SetDisplay(PopupOf(s), DisplayBlock);
      OneStep(s, st1, popupOn);
      SafeAppend(s, st1, middle, [popupOn]);
      ReplayAppend(s, st, [overlayOn], middle + [popupOn]);
      SafeAppend(s, st, [overlayOn], middle + [popupOn]);
      assert ShowEffects(s, name) == [overlayOn] + (middle + [popupOn]);
      SafeAppend(s, st, check, ShowEffects(s, name));
    } else {
      InertSteps(s, st, FailEffects(s));
      SafeAppend(s, st, check, FailEffects(s));
    }
  }

  /** `hide` hides the popup before the overlay, so it too never leaves the
      popup visible over a hidden overlay, and it ends with both hidden. */
  lemma HideIsSafe(s: Settings, st: Screen)
    requires Layered(st)
    ensures Safe(s, st, HideEffects(s))
    ensures Replay(s, st, HideEffects(s)) == Screen(DisplayNone, DisplayNone)
  {
    var popupOff := SetDisplay(PopupOf(s), DisplayNone);
    var overlayOff := SetDisplay(OverlayOf(s), DisplayNone);
    var st1 := Apply(s, st, popupOff);
    OneStep(s, st, popupOff);
    OneStep(s, st1, overlayOff);
    SafeAppend(s, st, [popupOff], [overlayOff]);
    ReplayAppend(s, st, [popupOff], [overlayOff]);
    assert HideEffects(s) == [popupOff] + [overlayOff];
  }

  /** After the show path both the overlay and the popup are displayed,
      whatever the screen was before. */
  lemma ShowEndsDisplayed(s: Settings, st: Screen, name: string)
    requires CheckPasses(s.doCheck)
    ensures Replay(s, st, TriggerEffects(s, name)) == Screen(DisplayBlock, DisplayBlock)
  {
    var check := HookCall(s.doCheck, DoCheck);
    var overlayOn := SetDisplay(OverlayOf(s), DisplayBlock);
    var middle := ShowMiddle(s, name);
    var popupOn := SetDisplay(PopupOf(s), DisplayBlock);
    assert TriggerEffects(s, name) == check + [overlayOn] + middle + [popupOn];
    ReplayAppend(s, st, check + [overlayOn] + middle, [popupOn]);
    assert [popupOn][1..] == [];
    var before := Replay(s, st, check + [overlayOn] + middle);
    ReplayAppend(s, st, check + [overlayOn], middle);
    ReplayAppend(s, st, check, [overlayOn]);
    assert [overlayOn][1..] == [];
    ReplayIgnoresInert(s, Apply(s, Replay(s, st, check), overlayOn), middle);
    ReplayIgnoresInert(s, st, check);
    assert before.overlay == DisplayBlock;
  }

  /** On the show path the overlay is displayed before anything else is done
      to the page and the popup is displayed last. In between, the confirm
      button takes the trigger's name, both buttons get their handler, and
      then a preShow function is called, just before the popup appears. The
      only user code the show path runs is doCheck and preShow. */
  lemma ShowOrder(s: Settings, name: string)
    requires CheckPasses(s.doCheck)
    ensures var log := TriggerEffects(s, name);
      var first := if IsFunction(s.doCheck) then 1 else 0;
      && |log| >= first + 5
      && (forall j :: 0 <= j < first ==> log[j] == Invoke(DoCheck))
      && log[first] == SetDisplay(OverlayOf(s), DisplayBlock)
      && log[first + 1] == SetName(ConfirmButtonOf(s), name)
      && log[first + 2] == Register(ConfirmButtonOf(s), ConfirmHandler(s.onConfirm))
      && log[first + 3] == Register(DenyButtonOf(s), DenyHandler(s.onDeny))
      && log[|log| - 1] == SetDisplay(PopupOf(s), DisplayBlock)
      && (forall j :: first < j < |log| - 1 ==> !log[j].SetDisplay?)
    ensures var log := TriggerEffects(s, name);
      IsFunction(s.preShow) ==> log[|log| - 2] == Invoke(PreShow)
    ensures var log := TriggerEffects(s, name);
      !IsFunction(s.preShow) ==> forall j :: 0 <= j < |log| ==> log[j] != Invoke(PreShow)
    ensures var log := TriggerEffects(s, name);
      forall j :: 0 <= j < |log| && log[j].Invoke? ==> log[j].hook == DoCheck || log[j].hook == PreShow
  {
  }

  /** Under the shipped defaults (no options, or `{}`): every click shows the
      dialog and calls no user code, the popup is the first child of
      `#confirm`, the buttons are `#m1_yes` and `#m1_no` inside it, and a
      confirm click lets the button's own action through. */
  lemma ShippedDefaults(options: Option<Options>, name: string)
    requires options == None || options == Some(NoOptions)
    ensures var s := Resolve(Defaults, options);
      && TriggerPath(s) == ShowDialog
      && PopupOf(s) == FirstChildOf("confirm")
      && ConfirmButtonOf(s) == FindIn(FirstChildOf("confirm"), "m1_yes")
      && DenyButtonOf(s) == FindIn(FirstChildOf("confirm"), "m1_no")
      && (forall j :: 0 <= j < |TriggerEffects(s, name)| ==> !TriggerEffects(s, name)[j].Invoke?)
      && ConfirmVerdict(s.onConfirm)
  {
  }

  /** On the check-fail paths the page is left alone: no display, name or
      handler changes, only user callbacks are called. */
  lemma CheckFailTouchesNothing(s: Settings, name: string)
    requires !CheckPasses(s.doCheck)
    ensures forall j :: 0 <= j < |TriggerEffects(s, name)| ==> TriggerEffects(s, name)[j].Invoke?
  {
  }

  /** With onCheckFail absent or false, a failed check calls an onDeny
      function exactly once, calls neither onConfirm nor onCheckFail, and
      suppresses the trigger's action. */
  lemma CheckFailDeniesOnce(s: Settings, name: string)
    requires TriggerPath(s) == FailDenied
    ensures Count(TriggerEffects(s, name), Invoke(OnDeny)) == (if IsFunction(s.onDeny) then 1 else 0)
    ensures Count(TriggerEffects(s, name), Invoke(OnConfirm)) == 0
    ensures Count(TriggerEffects(s, name), Invoke(OnCheckFail)) == 0
    ensures !TriggerReturn(s)
  {
    var check := HookCall(s.doCheck, DoCheck);
    var deny := HookCall(s.onDeny, OnDeny);
    assert check == [Invoke(DoCheck)];
    CountOne(Invoke(DoCheck), Invoke(OnDeny));
    CountOne(Invoke(DoCheck), Invoke(OnConfirm));
    CountOne(Invoke(DoCheck), Invoke(OnCheckFail));
    if deny != [] {
      CountOne(Invoke(OnDeny), Invoke(OnDeny));
      CountOne(Invoke(OnDeny), Invoke(OnConfirm));
      CountOne(Invoke(OnDeny), Invoke(OnCheckFail));
    }
    CountAppend(check, deny, Invoke(OnDeny));
    CountAppend(check, deny, Invoke(OnConfirm));
    CountAppend(check, deny, Invoke(OnCheckFail));
  }

  /** With a truthy onCheckFail, a failed check calls exactly one hook after
      doCheck: onCheckFail if it is a function, otherwise onConfirm if that is
      a function, otherwise none; onDeny is never called. */
  lemma CheckFailHandledCalls(s: Settings, name: string)
    requires TriggerPath(s).FailHandled?
    ensures TriggerEffects(s, name) ==
      [Invoke(DoCheck)] +
      (if IsFunction(s.onCheckFail) then [Invoke(OnCheckFail)]
       else if IsFunction(s.onConfirm) then [Invoke(OnConfirm)] else [])
    ensures TriggerReturn(s) == (if IsFunction(s.onCheckFail) then s.onCheckFail.result else ConfirmVerdict(s.onConfirm))
  {
  }

  // ----- The page state the handlers update -----

  /** One `construct` call: the resolved settings its closures capture and the
      state of the dialog elements they act on. */
  class ModalConfirm {
    const settings: Settings
    ghost const initial: Screen

    var overlayDisplay: Display
    var popupDisplay: Display
    /** The confirm button's `name` attribute. */
    var confirmName: string
    /** Handlers bound to the confirm and deny buttons, in binding order. */
    var confirmHandlers: seq<Handler>
    var denyHandlers: seq<Handler>
    /** Everything the handlers have done so far. */
    var log: seq<Effect>

    function Shown(): Screen
      reads this
    {
      Screen(overlayDisplay, popupDisplay)
    }

    ghost predicate Valid()
      reads this
    {
      && (forall j :: 0 <= j < |confirmHandlers| ==> confirmHandlers[j] == ConfirmHandler(settings.onConfirm))
      && (forall j :: 0 <= j < |denyHandlers| ==> denyHandlers[j] == DenyHandler(settings.onDeny))
      && |confirmHandlers| == |denyHandlers|
      && Safe(settings, initial, log)
      && Shown() == Replay(settings, initial, log)
      && Layered(Shown())
    }

    /** `construct(options)`: the settings are resolved once; the overlay and
        popup start hidden, as the plugin's stylesheet requires, and the
        buttons carry no handlers yet. */
    constructor (defaults: Settings, options: Option<Options>, buttonName: string)
      ensures Valid()
      ensures settings == Resolve(defaults, options)
      ensures Shown() == Screen(DisplayNone, DisplayNone)
      ensures confirmName == buttonName
      ensures confirmHandlers == [] && denyHandlers == [] && log == []
    {
      settings := Resolve(defaults, options);
      initial := Screen(DisplayNone, DisplayNone);
      overlayDisplay, popupDisplay := DisplayNone, DisplayNone;
      confirmName := buttonName;
      confirmHandlers, denyHandlers := [], [];
      log := [];
    }

    /** Appends `steps` to the log, keeping the invariant. */
    method Record(steps: seq<Effect>)
      requires Valid()
      requires Safe(settings, Shown(), steps)
      requires Replay(settings, Shown(), steps) == Shown()
      modifies this`log
      ensures Valid()
      ensures log == old(log) + steps
    {
      SafeAppend(settings, initial, log, steps);
      ReplayAppend(settings, initial, log, steps);
      log := log + steps;
    }

    /** A click on a trigger element whose `name` is `name`. */
    method TriggerClick(name: string) returns (result: bool)
      requires Valid()
      modifies this
      ensures Valid()
      ensures result == TriggerReturn(settings)
      ensures log == old(log) + TriggerEffects(settings, name)
      ensures CheckPasses(settings.doCheck) ==>
        && Shown() == Screen(DisplayBlock, DisplayBlock)
        && confirmName == name
        && confirmHandlers == old(confirmHandlers) + [ConfirmHandler(settings.onConfirm)]
        && denyHandlers == old(denyHandlers) + [DenyHandler(settings.onDeny)]
      ensures !CheckPasses(settings.doCheck) ==>
        && Shown() == old(Shown())
        && confirmName == old(confirmName)
        && confirmHandlers == old(confirmHandlers)
        && denyHandlers == old(denyHandlers)
    {
      ghost var log0 := log;
      ghost var st0 := Shown();
      TriggerIsSafe(settings, st0, name);
      if CheckPasses(settings.doCheck) {
        ShowEndsDisplayed(settings, st0, name);
        overlayDisplay := DisplayBlock;
        confirmName := name;
        confirmHandlers := confirmHandlers + [ConfirmHandler(settings.onConfirm)];
        denyHandlers := denyHandlers + [DenyHandler(settings.onDeny)];
        popupDisplay := DisplayBlock;
        result := false;
      } else if Truthy(settings.onCheckFail) {
        if IsFunction(settings.onCheckFail) {
          result := CallResult(settings.onCheckFail);
        } else if IsFunction(settings.onConfirm) {
          result := CallResult(settings.onConfirm);
        } else {
          result := LooselyNotFalse(settings.onConfirm);
        }
        ReplayIgnoresInert(settings, st0, TriggerEffects(settings, name));
      } else {
        result := false;
        ReplayIgnoresInert(settings, st0, TriggerEffects(settings, name));
      }
      log := log + TriggerEffects(settings, name);
      SafeAppend(settings, initial, log0, TriggerEffects(settings, name));
      ReplayAppend(settings, initial, log0, TriggerEffects(settings, name));
    }

    /** `hide(overlay, popup)`. */
    method Hide()
      requires Valid()
      modifies this`overlayDisplay, this`popupDisplay, this`log
      ensures Valid()
      ensures Shown() == Screen(DisplayNone, DisplayNone)
      ensures log == old(log) + HideEffects(settings)
    {
      HideIsSafe(settings, Shown());
      SafeAppend(settings, initial, log, HideEffects(settings));
      ReplayAppend(settings, initial, log, HideEffects(settings));
      popupDisplay := DisplayNone;
      overlayDisplay := DisplayNone;
      log := log + HideEffects(settings);
    }

    /** Runs one bound handler: `hide(overlay, popup)`, then its callback. */
    method RunHandler(handler: Handler)
      requires Valid()
      modifies this`overlayDisplay, this`popupDisplay, this`log
      ensures Valid()
      ensures log == old(log) + RunEffects(settings, handler)
      ensures Shown() == Screen(DisplayNone, DisplayNone)
    {
      Hide();
      var call := match handler
        case ConfirmHandler(c) => HookCall(c, OnConfirm)
        case DenyHandler(c) => HookCall(c, OnDeny);
      InertSteps(settings, Shown(), call);
      Record(call);
    }

    /** Runs the handlers bound to one button, in order; reports whether one
        of them returned false. */
    method Dispatch(hs: seq<Handler>) returns (prevented: bool)
      requires Valid()
      modifies this`overlayDisplay, this`popupDisplay, this`log
      ensures Valid()
      ensures log == old(log) + RunAll(settings, hs)
      ensures prevented == Prevents(hs)
      ensures |hs| > 0 ==> Shown() == Screen(DisplayNone, DisplayNone)
      ensures |hs| == 0 ==> Shown() == old(Shown())
    {
      prevented := false;
      var i := 0;
      while i < |hs|
        invariant 0 <= i <= |hs|
        invariant Valid()
        invariant log == old(log) + RunAll(settings, hs[..i])
        invariant prevented == Prevents(hs[..i])
        invariant i > 0 ==> Shown() == Screen(DisplayNone, DisplayNone)
        invariant i == 0 ==> Shown() == old(Shown())
      {
        RunHandler(hs[i]);
        RunAllStep(settings, hs, i);
        PreventsStep(hs, i);
        prevented := prevented || Returned(hs[i]) == Some(false);
        i := i + 1;
      }
      assert hs[..i] == hs;
    }

    /** A click on the confirm button: every bound confirm handler hides the
        dialog and yields the onConfirm verdict; the button's own action
        (a submit carrying the trigger's name) is prevented exactly when the
        verdict is false. */
    method ConfirmClick() returns (prevented: bool)
      requires Valid()
      modifies this`overlayDisplay, this`popupDisplay, this`log
      ensures Valid()
      ensures log == old(log) + RunAll(settings, confirmHandlers)
      ensures prevented <==> |confirmHandlers| > 0 && !ConfirmVerdict(settings.onConfirm)
      ensures |confirmHandlers| > 0 ==> Shown() == Screen(DisplayNone, DisplayNone)
      ensures |confirmHandlers| == 0 ==> Shown() == old(Shown())
    {
      prevented := Dispatch(confirmHandlers);
      PreventsOnlyOnFalseVerdict(confirmHandlers, ConfirmHandler(settings.onConfirm));
    }

    /** A click on the deny button: every bound deny handler hides the dialog
        and calls onDeny; the handlers return nothing, so the button's own
        action is never prevented. */
    method DenyClick() returns (prevented: bool)
      requires Valid()
      modifies this`overlayDisplay, this`popupDisplay, this`log
      ensures Valid()
      ensures log == old(log) + RunAll(settings, denyHandlers)
      ensures !prevented
      ensures |denyHandlers| > 0 ==> Shown() == Screen(DisplayNone, DisplayNone)
      ensures |denyHandlers| == 0 ==> Shown() == old(Shown())
    {
      prevented := Dispatch(denyHandlers);
      PreventsOnlyOnFalseVerdict(denyHandlers, DenyHandler(settings.onDeny));
    }
  }

  /** The handlers bound by earlier shows stay on the buttons: after the
      dialog has been shown twice, one click on confirm runs onConfirm twice
      (and lets the confirm button's action through when it returns true). */
  method ConfirmAfterTwoShows(name: string) returns (calls: nat, prevented: bool)
    ensures calls == 2 && !prevented
  {
    var options := NoOptions.(onConfirm := Some(Fn(true)));
    var m := new ModalConfirm(Defaults, Some(options), "");
    ghost var s := m.settings;
    assert s.onConfirm == Fn(true) && s.doCheck == Absent by {
      assert Get(s, OnConfirmKey) == CallbackValue(Fn(true));
      assert Get(s, DoCheckKey) == CallbackValue(Absent);
    }
    var r1 := m.TriggerClick(name);
    assert m.confirmHandlers == [ConfirmHandler(Fn(true))];
    var r2 := m.TriggerClick(name);
    assert m.confirmHandlers == [ConfirmHandler(Fn(true)), ConfirmHandler(Fn(true))];
    assert !r1 && !r2;
    ghost var hs := m.confirmHandlers;
    var before := m.log;
    prevented := m.ConfirmClick();
    assert m.log == before + RunAll(s, hs);
    ClickCallsEachHandlerOnce(s, hs, ConfirmHandler(Fn(true)));
    assert m.log[|before|..] == RunAll(s, hs);
    calls := Count(m.log[|before|..], Invoke(OnConfirm));
  }
}

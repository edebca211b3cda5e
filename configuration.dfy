/**
 * Settings resolution: `$.extend({}, $.modalconfirm.defaults, options || {})`.
 * The defaults are a parameter (the embedding page may overwrite
 * `$.modalconfirm.defaults` before binding); `Defaults` is the record the
 * plugin ships with.
 */
module Configuration {
  import opened Callbacks

  datatype Option<T> = None | Some(value: T)

  /** A resolved settings object. `popupID` is `None` for null. */
  datatype Settings = Settings(
    confirmBtnID: string,
    denyBtnID: string,
    doCheck: Callback,
    onCheckFail: Callback,
    onConfirm: Callback,
    onDeny: Callback,
    overlayID: string,
    popupID: Option<string>,
    preShow: Callback)

  /** The plugin's own defaults. */
  const Defaults: Settings :=
    Settings("m1_yes", "m1_no", Absent, Absent, Absent, Absent, "confirm", None, Absent)

  /** The caller's options object: a field is `None` when the key is missing
      or holds undefined (both are skipped by `$.extend`), `Some(v)` when the
      key holds `v` (for `popupID`, `Some(None)` is an explicit null). */
  datatype Options = Options(
    confirmBtnID: Option<string>,
    denyBtnID: Option<string>,
    doCheck: Option<Callback>,
    onCheckFail: Option<Callback>,
    onConfirm: Option<Callback>,
    onDeny: Option<Callback>,
    overlayID: Option<string>,
    popupID: Option<Option<string>>,
    preShow: Option<Callback>)

  /** The options object `{}`. */
  const NoOptions: Options := Options(None, None, None, None, None, None, None, None, None)

  /** The keys of a settings object. */
  datatype Key =
    | ConfirmBtnIdKey | DenyBtnIdKey | DoCheckKey | OnCheckFailKey | OnConfirmKey
    | OnDenyKey | OverlayIdKey | PopupIdKey | PreShowKey

  /** The value stored under a key, whatever its type. */
  datatype Value = Text(text: string) | MaybeText(maybe: Option<string>) | CallbackValue(callback: Callback)

  /** `settings[k]`. */
  function Get(s: Settings, k: Key): Value {
    match k
    case ConfirmBtnIdKey => Text(s.confirmBtnID)
    case DenyBtnIdKey => Text(s.denyBtnID)
    case DoCheckKey => CallbackValue(s.doCheck)
    case OnCheckFailKey => CallbackValue(s.onCheckFail)
    case OnConfirmKey => CallbackValue(s.onConfirm)
    case OnDenyKey => CallbackValue(s.onDeny)
    case OverlayIdKey => Text(s.overlayID)
    case PopupIdKey => MaybeText(s.popupID)
    case PreShowKey => CallbackValue(s.preShow)
  }

  /** `options[k]`, or `None` when `$.extend` would skip the key. */
  function Given(o: Options, k: Key): Option<Value> {
    match k
    case ConfirmBtnIdKey => if o.confirmBtnID.Some? then Some(Text(o.confirmBtnID.value)) else None
    case DenyBtnIdKey => if o.denyBtnID.Some? then Some(Text(o.denyBtnID.value)) else None
    case DoCheckKey => if o.doCheck.Some? then Some(CallbackValue(o.doCheck.value)) else None
    case OnCheckFailKey => if o.onCheckFail.Some? then Some(CallbackValue(o.onCheckFail.value)) else None
    case OnConfirmKey => if o.onConfirm.Some? then Some(CallbackValue(o.onConfirm.value)) else None
    case OnDenyKey => if o.onDeny.Some? then Some(CallbackValue(o.onDeny.value)) else None
    case OverlayIdKey => if o.overlayID.Some? then Some(Text(o.overlayID.value)) else None
    case PopupIdKey => if o.popupID.Some? then Some(MaybeText(o.popupID.value)) else None
    case PreShowKey => if o.preShow.Some? then Some(CallbackValue(o.preShow.value)) else None
  }

  /** What an options argument contributes for key `k`: nothing when the
      argument itself is null/undefined (`options || {}`). */
  function Supplied(options: Option<Options>, k: Key): Option<Value> {
    if options.Some? then Given(options.value, k) else None
  }

  function Pick<T>(given: Option<T>, fallback: T): T {
    if given.Some? then given.value else fallback
  }

  /** The merge `$.extend({}, defaults, options || {})`: every key the caller
      supplies shadows the default, every other key keeps it. */
  function Resolve(defaults: Settings, options: Option<Options>): (r: Settings)
    ensures forall k: Key ::
              Get(r, k) == (if Supplied(options, k).Some? then Supplied(options, k).value else Get(defaults, k))
  {
    var o := if options.Some? then options.value else NoOptions;
    Settings(
      Pick(o.confirmBtnID, defaults.confirmBtnID),
      Pick(o.denyBtnID, defaults.denyBtnID),
      Pick(o.doCheck, defaults.doCheck),
      Pick(o.onCheckFail, defaults.onCheckFail),
      Pick(o.onConfirm, defaults.onConfirm),
      Pick(o.onDeny, defaults.onDeny),
      Pick(o.overlayID, defaults.overlayID),
      Pick(o.popupID, defaults.popupID),
      Pick(o.preShow, defaults.preShow))
  }

  /** Two settings objects that agree on every key are the same object. */
  lemma SameKeysSameSettings(a: Settings, b: Settings)
    requires forall k: Key :: Get(a, k) == Get(b, k)
    ensures a == b
  {
    assert Get(a, ConfirmBtnIdKey) == Get(b, ConfirmBtnIdKey);
    assert Get(a, DenyBtnIdKey) == Get(b, DenyBtnIdKey);
    assert Get(a, DoCheckKey) == Get(b, DoCheckKey);
    assert Get(a, OnCheckFailKey) == Get(b, OnCheckFailKey);
    assert Get(a, OnConfirmKey) == Get(b, OnConfirmKey);
    assert Get(a, OnDenyKey) == Get(b, OnDenyKey);
    assert Get(a, OverlayIdKey) == Get(b, OverlayIdKey);
    assert Get(a, PopupIdKey) == Get(b, PopupIdKey);
    assert Get(a, PreShowKey) == Get(b, PreShowKey);
  }

  /** A null or undefined options argument yields exactly the defaults. */
  lemma ResolveWithoutOptions(defaults: Settings)
    ensures Resolve(defaults, None) == defaults
  {
    SameKeysSameSettings(Resolve(defaults, None), defaults);
  }

  /** So does the empty options object `{}`. */
  lemma ResolveEmptyOptions(defaults: Settings)
    ensures Resolve(defaults, Some(NoOptions)) == defaults
  {
    SameKeysSameSettings(Resolve(defaults, Some(NoOptions)), defaults);
  }

  /** Merging the same options a second time changes nothing. */
  lemma ResolveIdempotent(defaults: Settings, options: Option<Options>)
    ensures Resolve(Resolve(defaults, options), options) == Resolve(defaults, options)
  {
    var once := Resolve(defaults, options);
    SameKeysSameSettings(Resolve(once, options), once);
  }

  /** When the caller supplies every key, the defaults are irrelevant. */
  lemma ResolveFullOptionsIgnoresDefaults(d1: Settings, d2: Settings, options: Options)
    requires forall k: Key :: Given(options, k).Some?
    ensures Resolve(d1, Some(options)) == Resolve(d2, Some(options))
  {
    SameKeysSameSettings(Resolve(d1, Some(options)), Resolve(d2, Some(options)));
  }
}

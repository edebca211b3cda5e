/**
 * The pure decision logic of the trigger click handler
 * (jquery.modalconfirm.js:83-133) and of the confirm button handler
 * (lines 92-99): which path a click takes and what the handler returns.
 * In jQuery a handler that returns `false` suppresses the clicked element's
 * default action and stops the event from bubbling.
 */
module Decisions {
  import opened Callbacks
  import opened Configuration

  /** The gate `!$.isFunction(doCheck) || doCheck.call()`: only a doCheck
      function that returns false blocks the dialog; any other value, even
      the boolean false, lets it show. */
  function CheckPasses(doCheck: Callback): (pass: bool)
    ensures !pass <==> doCheck == Fn(false)
  {
    !IsFunction(doCheck) || CallResult(doCheck)
  }

  /** The value the confirm handler returns (and the check-fail path returns
      when it falls back to onConfirm): the function's result, otherwise
      `onConfirm != false`. */
  function ConfirmVerdict(onConfirm: Callback): (proceed: bool)
    ensures !proceed <==> onConfirm == Fn(false) || onConfirm == Fixed(false)
  {
    if IsFunction(onConfirm) then CallResult(onConfirm) else LooselyNotFalse(onConfirm)
  }

  /** The three ways a click on a trigger element ends. */
  datatype Path =
    | ShowDialog               // the dialog is shown; the handler returns false
    | FailHandled(result: bool) // doCheck failed, onCheckFail truthy; its verdict is returned
    | FailDenied               // doCheck failed, onCheckFail absent or false; onDeny, return false

  /** The path the trigger handler takes under resolved settings `s`. */
  function TriggerPath(s: Settings): (p: Path)
    ensures p.ShowDialog? <==> s.doCheck != Fn(false)
    ensures p.FailDenied? <==> s.doCheck == Fn(false) && (s.onCheckFail.Absent? || s.onCheckFail == Fixed(false))
    ensures p.FailHandled? ==> s.doCheck == Fn(false)
    ensures p.FailHandled? && s.onCheckFail.Fn? ==> p.result == s.onCheckFail.result
    ensures p.FailHandled? && !s.onCheckFail.Fn? ==> s.onCheckFail == Fixed(true) && p.result == ConfirmVerdict(s.onConfirm)
  {
    if CheckPasses(s.doCheck) then ShowDialog
    else if Truthy(s.onCheckFail) then
      FailHandled(if IsFunction(s.onCheckFail) then CallResult(s.onCheckFail) else ConfirmVerdict(s.onConfirm))
    else FailDenied
  }

  /** The trigger handler's return value: false after showing the dialog and
      after the deny fallback, the onCheckFail verdict otherwise. */
  function TriggerReturn(s: Settings): (r: bool)
    ensures r ==> !CheckPasses(s.doCheck) && Truthy(s.onCheckFail)
  {
    match TriggerPath(s)
    case ShowDialog => false
    case FailHandled(result) => result
    case FailDenied => false
  }

  /** The trigger's own action is let through (the handler does not return
      false) exactly when doCheck fails and onCheckFail decides in favour:
      a truthy onCheckFail function returning true, or onCheckFail true with
      an onConfirm verdict of true. */
  lemma TriggerLetsActionThrough(s: Settings)
    ensures TriggerReturn(s) <==>
      s.doCheck == Fn(false) &&
      (s.onCheckFail == Fn(true) ||
       (s.onCheckFail == Fixed(true) && s.onConfirm != Fn(false) && s.onConfirm != Fixed(false)))
  {
  }

  /** Without a doCheck function, every click shows the dialog and suppresses
      the trigger's own action. */
  lemma NoCheckFunctionAlwaysShows(s: Settings)
    requires !IsFunction(s.doCheck)
    ensures TriggerPath(s) == ShowDialog && !TriggerReturn(s)
  {
  }

  /** The rule for onCheckFail as the plugin's documentation states it
      (jquery.modalconfirm.js:28-32): a function's result is returned; a
      boolean is itself returned (after onConfirm or onDeny is called). The
      documentation gives only "default null" and no rule for it; for null
      this rule takes `false` from the code's final `return false` (line 132). */
  function DocumentedCheckFailReturn(onCheckFail: Callback): (r: bool)
  {
    match onCheckFail
    case Fn(result) => result
    case Fixed(b) => b
    case Absent => false
  }

  /** The code agrees with the documented rule on the check-fail path except
      when onCheckFail is true and onConfirm's verdict is false: then the code
      returns onConfirm's false where the documentation promises true. */
  lemma CheckFailCodeMatchesDocumentation(s: Settings)
    requires !CheckPasses(s.doCheck)
    ensures TriggerReturn(s) == DocumentedCheckFailReturn(s.onCheckFail) <==>
      !(s.onCheckFail == Fixed(true) && !ConfirmVerdict(s.onConfirm))
  {
  }
}

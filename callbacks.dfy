/**
 * The callback-valued settings of the plugin (doCheck, preShow, onCheckFail,
 * onConfirm, onDeny) and the three JavaScript coercions the plugin applies
 * to them. User code is represented only by whether it is present and, when
 * it is a function, by the boolean it returns when called.
 */
module Callbacks {

  /** An option value: null/undefined, a plain boolean, or a function that
      returns `result` when it is called. */
  datatype Callback = Absent | Fixed(value: bool) | Fn(result: bool)

  /** `$.isFunction(c)`. */
  predicate IsFunction(c: Callback) {
    c.Fn?
  }

  /** JavaScript truthiness, as `if (c)` tests the option: null and false are
      falsy, true and every function are truthy. */
  predicate Truthy(c: Callback)
    ensures Truthy(c) <==> c.Fn? || c == Fixed(true)
  {
    match c
    case Absent => false
    case Fixed(b) => b
    case Fn(_) => true
  }

  /** `c != false` under loose equality: null and undefined are not loosely
      equal to false, nor is a function; a boolean is compared as itself. */
  predicate LooselyNotFalse(c: Callback)
    ensures !LooselyNotFalse(c) <==> c == Fixed(false)
    ensures Truthy(c) ==> LooselyNotFalse(c)
    ensures LooselyNotFalse(c) && !Truthy(c) <==> c.Absent?
  {
    match c
    case Absent => true
    case Fixed(b) => b
    case Fn(_) => true
  }

  /** The callback value called with `.call(...)`: its boolean result. */
  function CallResult(c: Callback): bool
    requires IsFunction(c)
  {
    c.result
  }
}

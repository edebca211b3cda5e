# ModalConfirm: a Dafny model

ModalConfirm is a jQuery plugin. It binds a click handler to trigger elements. When a trigger is clicked, an optional `doCheck` decides whether to show a modal overlay and dialog. If the dialog is shown, the trigger's own action is suppressed, and two handlers are bound: one on the dialog's confirm button and one on its deny button. Confirming hides the dialog and lets the confirm button's own action through when `onConfirm` allows it. The trigger's `name` is copied onto that button, so a form submitted by the confirm button looks as if the trigger had submitted it. Denying hides the dialog and calls `onDeny`. When `doCheck` fails, `onCheckFail` decides what the click returns.

The model has four modules:

- `Callbacks` (callbacks.dfy): models a callback-valued option as `Absent | Fixed(bool) | Fn(result)`. It also gives the three JavaScript coercions the plugin applies to such an option: `$.isFunction(c)`, truthiness `if (c)`, and the loose comparison `c != false`.
- `Configuration` (configuration.dfy): the settings record, the shipped defaults, the options object, and `Resolve`, which models `$.extend({}, defaults, options || {})`. `Resolve` is specified key by key.
- `Decisions` (decisions.dfy): the pure decision logic of the trigger click. This covers the `doCheck` gate, the verdict of `onConfirm`, the three paths a click can take, and the handler's return value. In jQuery, a handler that returns `false` suppresses the clicked element's default action.
- `Dialog` (dialog.dfy): element resolution, including the popup lookup. It records, in source order, the effects each handler has on the page and on user code: display changes, the name copy, handler binding and callback calls. Replaying that log gives the overlay and popup displays. Around these sits the class `ModalConfirm`, the state one `construct` call acts on. Its methods are `TriggerClick`, `ConfirmClick`, `DenyClick` and `Hide`. Its fields are the overlay display, the popup display, the confirm button's `name`, the handler lists of both buttons, and the effect log. Its invariant says four things. First, every handler on the confirm button is the confirm handler for this call's `onConfirm`, and every handler on the deny button is the deny handler for this call's `onDeny`. Second, both buttons carry the same number of handlers. `ConfirmClick`'s prevention result relies on these two facts: every bound handler returns the same verdict. Third, the replayed log gives the current displays. Fourth, at no step of the history, intermediate steps included, was the popup displayed over a hidden overlay.

Each show appends one handler to each button, and no handler is ever removed. jQuery runs every handler bound to a clicked element. So after one `construct` call's dialog has been shown n times, one confirm click runs `onConfirm` n times (`CountRunAll`, `ClickCallsEachHandlerOnce`, `ConfirmAfterTwoShows`). This counts only the handlers that call bound. Other `construct` calls that use the same element ids bind their handlers on the same buttons, and those handlers are not modelled (see "Left out").

Two facts about the code that are easy to misread:

- A `doCheck` that is not a function never blocks the dialog, even when it is the boolean `false` (`Decisions.CheckPasses`).
- No code in the plugin re-dispatches the trigger's event after a confirm. The trigger's action stays suppressed. Only the confirm button's own action, which carries the trigger's name, can follow.

Where the plugin's documentation and the code disagree, the model follows the code:

- `onCheckFail: true`: the documentation (jquery.modalconfirm.js:28-32) says the click then returns `true`. The code returns `onConfirm`'s verdict instead. `Decisions.CheckFailCodeMatchesDocumentation` states in both directions exactly when the two agree.

## Model

| member | source | states |
|---|---|---|
| Callbacks.Truthy | jquery.modalconfirm.js:121 | `if (onCheckFail)` holds exactly for a function or the boolean true. |
| Callbacks.LooselyNotFalse | jquery.modalconfirm.js:97 | `c != false` (also at line 127) fails only for the boolean false. It holds whenever the value is truthy, and it differs from truthiness exactly on null/undefined. |
| Configuration.Resolve | jquery.modalconfirm.js:79-81 | For every key, the resolved value is the caller's value when the options object supplies the key. Otherwise it is the default. A null options argument supplies nothing. |
| Configuration.ResolveWithoutOptions | jquery.modalconfirm.js:81 | A null or undefined options argument yields exactly the defaults. |
| Configuration.ResolveEmptyOptions | jquery.modalconfirm.js:81 | The empty options object `{}` yields exactly the defaults. |
| Configuration.ResolveIdempotent | jquery.modalconfirm.js:81 | Merging the same options onto an already-merged result changes nothing. |
| Configuration.ResolveFullOptionsIgnoresDefaults | jquery.modalconfirm.js:67-81 | When the options supply every key, the result does not depend on the defaults. |
| Decisions.CheckPasses | jquery.modalconfirm.js:84 | The gate fails exactly when `doCheck` is a function that returns false. An absent or boolean `doCheck` always passes. |
| Decisions.ConfirmVerdict | jquery.modalconfirm.js:94-98 | The confirm verdict is false exactly when `onConfirm` is a function that returns false or is the boolean false. Absent gives true. |
| Decisions.TriggerPath | jquery.modalconfirm.js:84-131 | The dialog is shown exactly when the gate passes. The deny fallback is taken exactly when the gate fails and `onCheckFail` is absent or false. Otherwise the click returns the result of the `onCheckFail` function, or, when `onCheckFail` is true, the `onConfirm` verdict. |
| Decisions.TriggerReturn | jquery.modalconfirm.js:84-132 | The handler can return true only after a failed check with a truthy `onCheckFail`. `Decisions.TriggerLetsActionThrough` and `Decisions.CheckFailCodeMatchesDocumentation` state exactly when it does. |
| Decisions.TriggerLetsActionThrough | jquery.modalconfirm.js:83-132 | The trigger handler returns true, and so leaves the trigger's action alone, exactly when `doCheck` fails and either `onCheckFail` returns true or `onCheckFail` is true and the `onConfirm` verdict is true. |
| Decisions.NoCheckFunctionAlwaysShows | jquery.modalconfirm.js:84-132 | Without a `doCheck` function every click shows the dialog and returns false. |
| Decisions.CheckFailCodeMatchesDocumentation | jquery.modalconfirm.js:121-131 | On a failed check the return value equals the documented one (lines 28-32), except exactly when `onCheckFail` is true and the `onConfirm` verdict is false. The documentation gives no rule for a null `onCheckFail`; there the documented value is taken to be the code's `false` from line 132. |
| Dialog.PopupOf | jquery.modalconfirm.js:88-89 | A non-empty `popupID` selects the element with that id. A null or empty one selects the overlay's first child. |
| Dialog.TriggerEffects | jquery.modalconfirm.js:83-131 | The click changes a display exactly when the gate passes. `Dialog.ShowOrder`, `Dialog.TriggerIsSafe` and `Dialog.ShowEndsDisplayed` give the show path's order and outcome. |
| Dialog.ShowEffects | jquery.modalconfirm.js:85-119 | The show path's steps, in source order. Their order is stated by `Dialog.ShowOrder`, including the `preShow` call after both bindings and before the popup is displayed. Their outcome is stated by `Dialog.ShowEndsDisplayed` and their safety by `Dialog.TriggerIsSafe`. |
| Dialog.FailEffects | jquery.modalconfirm.js:121-131 | The check-fail path makes at most one step, and it is a call of `onCheckFail`, `onConfirm` or `onDeny`. `Dialog.CheckFailDeniesOnce` and `Dialog.CheckFailHandledCalls` say which. |
| Dialog.HideEffects | jquery.modalconfirm.js:138-141 | `hide`'s two steps. `Dialog.HideIsSafe` states that they keep the popup off a hidden overlay and end with both hidden. |
| Dialog.RunEffects | jquery.modalconfirm.js:92-103 | One run of a button handler. `Dialog.HandlerCalls` states which callback it calls and how often. |
| Dialog.Returned | jquery.modalconfirm.js:92-103 | Only confirm handlers return a value. A handler returns false exactly when it is a confirm handler whose `onConfirm` is a function returning false or the boolean false. |
| Dialog.ShippedDefaults | jquery.modalconfirm.js:67-77 | The shipped defaults `Configuration.Defaults`, with no options or `{}`: every click shows the dialog and calls no user code. The popup is the overlay `#confirm`'s first child, and the buttons are `#m1_yes` and `#m1_no` inside it. A confirm click lets the button's action through. |
| Dialog.ShowOrder | jquery.modalconfirm.js:84-119 | On the show path, after any `doCheck` call, the first step displays the overlay. The next copies the trigger's name onto the confirm button. The next two bind the confirm handler and then the deny handler. The last displays the popup. No other step changes a display. A `preShow` function is called just before the popup is displayed, so after both handlers are bound; a `preShow` that is not a function is never called. The only user code the show path calls is `doCheck` and `preShow`; it never calls `onConfirm`, `onDeny` or `onCheckFail`. |
| Dialog.ShowEndsDisplayed | jquery.modalconfirm.js:85-119 | After the show path, the overlay and the popup are both displayed, whatever the screen was before. |
| Dialog.TriggerIsSafe | jquery.modalconfirm.js:85-119 | No step of the trigger handler leaves the popup displayed over a hidden overlay. |
| Dialog.HideIsSafe | jquery.modalconfirm.js:138-141 | `hide` hides the popup before the overlay, so no step shows the popup over a hidden overlay. It ends with both hidden. |
| Dialog.CheckFailTouchesNothing | jquery.modalconfirm.js:121-131 | On a failed check the handler only calls user callbacks. No display, name or binding changes. |
| Dialog.CheckFailDeniesOnce | jquery.modalconfirm.js:129-132 | With `onCheckFail` absent or false, a failed check calls an `onDeny` function exactly once. It calls neither `onConfirm` nor `onCheckFail`, and returns false. |
| Dialog.CheckFailHandledCalls | jquery.modalconfirm.js:121-128 | With a truthy `onCheckFail`, a failed check calls, after `doCheck`, only `onCheckFail` if it is a function, else only `onConfirm` if that is a function, else nothing. The result is the value of that call or the `onConfirm` verdict. |
| Dialog.HandlerCalls | jquery.modalconfirm.js:92-103 | A confirm handler calls an `onConfirm` function once and never `onDeny`. A deny handler calls an `onDeny` function once and never `onConfirm`. |
| Dialog.CountRunAll | jquery.modalconfirm.js:92-103 | Running n copies of a handler produces each of its effects n times as often as one run does. |
| Dialog.ClickCallsEachHandlerOnce | jquery.modalconfirm.js:92-103 | A click on a button carrying n bound handlers calls its callback n times (if a function) and never the other button's callback. |
| Dialog.PreventsOnlyOnFalseVerdict | jquery.modalconfirm.js:92-103 | The confirm button's action is prevented exactly when a handler is bound and the verdict is false. The deny handlers never prevent the deny button's action. |
| Dialog.ModalConfirm.constructor | jquery.modalconfirm.js:79-81 | The settings are resolved once. The overlay and popup start hidden, as the stylesheet notes at lines 37-38 and 46-47 require (`display:none` on both divs), and no handlers are bound. |
| Dialog.ModalConfirm.TriggerClick | jquery.modalconfirm.js:83-133 | Returns the trigger handler's value and appends the trigger effects to the log. On the show path: both displayed, the confirm button's name is the trigger's, one handler appended to each button. On a failed check: displays, name and handlers unchanged. The invariant is kept. |
| Dialog.ModalConfirm.Hide | jquery.modalconfirm.js:138-141 | Popup then overlay set to `display:none`. Nothing else changes. |
| Dialog.ModalConfirm.ConfirmClick | jquery.modalconfirm.js:92-99 | Runs every bound confirm handler in order: both elements hidden if any is bound, one `onConfirm` call per handler. Reports prevention exactly when a handler is bound and the verdict is false. The handlers stay bound. |
| Dialog.ModalConfirm.DenyClick | jquery.modalconfirm.js:100-103 | Runs every bound deny handler in order: both elements hidden if any is bound, one `onDeny` call per handler. The deny button's action is never prevented. The handlers stay bound. |
| Dialog.ConfirmAfterTwoShows | jquery.modalconfirm.js:92-103 | After two shows, one confirm click with `onConfirm` returning true calls it twice and prevents nothing. |

## Left out

- Centring arithmetic (jquery.modalconfirm.js:108-117): `height()`, `width()` and `outerHeight()/2` are floating-point layout values that come from jQuery. Only the final `display:block` of the popup is modelled.
- jQuery itself: selector lookup, plugin registration (lines 65 and 145), and the `this.each` loop over matched elements (line 82). `ModalConfirm` is the state one `construct` call captures. `TriggerClick` takes the clicked element's name as a parameter.
- `Dialog.ModalConfirm.ConfirmClick` and `Dialog.ModalConfirm.DenyClick`: only the handlers this `construct` call bound are modelled. The overlay, popup and buttons are looked up by id (lines 85, 89, 91 and 100). So two `construct` calls with the same ids, for example two calls that both keep the default ids, share those elements, and a click on a shared button also runs the other call's handlers. The state of one `ModalConfirm` holds only its own, so these contracts say nothing about handlers bound by other calls.
- Element existence and identity: the model assumes that the overlay, popup, confirm button and deny button exist and that the two buttons are distinct elements. An empty jQuery selection, which makes `.css`, `.attr` and `.click` silently do nothing, is not modelled. Neither are buttons that share one id and so carry both handlers.
- Callback bodies: user code is represented by presence, one fixed boolean result, and the log of its calls. A function is assumed to return the same boolean on every call. Non-boolean return values are not modelled: for example, `undefined` is falsy for `doCheck` but does not suppress an event in jQuery. The arguments and `this` passed to callbacks are not modelled, nor is anything a callback does to the page.
- Option values other than null/undefined, a boolean or a function, for callback keys; and null, for the id keys other than `popupID`.
- The trigger element's `name` is a string. An element without a `name` property is not modelled.
- Event objects and bubbling: a handler's return value stands for jQuery's `preventDefault`/`stopPropagation`. What the page does when an action is let through is not modelled.

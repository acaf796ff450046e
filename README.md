# Cart line-item controller, modelled in Dafny

This project models the decision logic of the storefront's cart script
(`assets/cart.js`): the `cart-items` custom element that validates a typed
quantity, asks the server to change a line, and applies the server's answer
to the page, and the `cart-remove-button` element that requests quantity 0
for its line. The page is not a DOM here but an abstract view, `PageState`:
the quantity inputs by element id (current value, committed `value`
attribute, custom validity message), the `is-empty` flags of the items
element, the footer and the drawer, the section containers by id, the
line-error elements by id, the cart-level error region, the events published
on the cart-update channel, and whether the element is subscribed to it.

Files and modules:

- `options.dfy` (`Options`): the optional-value type.
- `text.dfy` (`Text`): JavaScript's `String.prototype.replace` with a string
  pattern, used to fill the `[min]`, `[max]` and `[step]` placeholders: the
  first occurrence is found as `indexOf` finds it and replaced by the
  replacement text with its `$$`, `$&`, `` $` `` and `$'` patterns expanded
  (GetSubstitution, section 22.1.3.19.1 of ECMAScript 2024).
- `quantity_validation.dfy` (`QuantityValidation`): `validateQuantity`'s
  if/else-if chain as a pure classification (below minimum, above maximum,
  not a multiple of the step, acceptable), the message, and the decision.
- `sections.dfy` (`CartSections`): `getSectionsToRender` (a fixed list of
  four descriptors filtered on a defined section name) and the `forEach` that
  replaces section contents, as the function `Rerender`.
- `cart_items.dfy` (`CartSync`): the remove button's click, the request body,
  the specification functions `Validated` and `Responded` over `PageState`,
  and the class `CartItems`, whose methods change the view in place and are
  each proved equal to the corresponding specification function
  (`ensures Page() == Responded(old(Page()), ...)`); the section loop is a
  `while` loop proved against `Rerender`.

JavaScript semantics made explicit:

- `parseInt` of the field may give NaN (`Entered.NotANumber`): every
  comparison with NaN is false, so NaN passes the min and max checks, fails
  the step check when a step is declared, and is accepted otherwise.
- `input.max` and `input.step` are declared when the attribute text is
  non-empty (the subset type `InputConstraints`); a step of 0 makes `v % 0` NaN, so every value fails it. Whether
  a remainder is zero does not depend on truncating or Euclidean division.
- `if (message)`: the value is rejected only when the filled-in message is
  non-empty; `DecideMatchesClassify` shows that with non-empty templates and
  bound texts this is exactly "some constraint is broken".
- `.filter((s) => s.section)` drops a descriptor whose section name is
  missing or the empty string; `if (parsedState.errors)` treats an empty
  errors string as no errors.
- The `return` on the errors path of the response handler leaves only the
  callback passed to `CartPerformance.measure`; the cart-update event is
  published after both paths, and the model does so too.
- `resetQuantityInput` looks up only `#Quantity-<index>`, so an invalid
  value typed in a drawer field (`Drawer-quantity-<index>`) gets its validity
  message but keeps its value; the response handler's rollback looks up both
  ids.

## Model

| member | source | states |
|---|---|---|
| `Text.IndexOf` | assets/cart.js:64-68 | the placeholder's position is an occurrence with no earlier one, and none is found only when it does not occur at all |
| `Text.Expand` | assets/cart.js:64-68 | a replacement text without `$` is inserted as it is; one starting with another character keeps that character first |
| `Text.ReplaceFirst` | assets/cart.js:64-68 | a template without the placeholder is used unchanged |
| `Text.ReplaceFirstAt` | assets/cart.js:64-68 | when the placeholder first occurs at index k, it is replaced by the expanded bound text and the rest of the template is kept (the bound text itself when it has no `$`) |
| `Text.DollarPatternExpands` | assets/cart.js:64 | the bound text "5$&" expands to "5[min]": `$&` stands for the matched placeholder |
| `Text.ReplaceFirstNonEmpty` | assets/cart.js:64-71 | a non-empty template filled with a text that does not start with `$` yields a non-empty (truthy) message |
| `QuantityValidation.Classify` | assets/cart.js:63-69 | below-minimum iff the value is below the minimum; above-maximum iff not below the minimum, a maximum is declared and exceeded; step error iff both earlier checks pass, a step is declared and the value is not a multiple of it; acceptable iff none of these |
| `QuantityValidation.MultipleOf` | assets/cart.js:67 | `v % step === 0` holds iff the value is a number, the step is not 0 and the value equals step times its quotient; NaN and a step of 0 fail it |
| `QuantityValidation.Message` | assets/cart.js:61-69 | the message is the min, max or step template with its own placeholder replaced by the bound's attribute text, and empty for an acceptable value |
| `QuantityValidation.Decide` | assets/cart.js:71-83 | a rejection carries a non-empty message and implies some constraint is broken; an acceptable value is accepted with the entered quantity unchanged |
| `QuantityValidation.DecideMatchesClassify` | assets/cart.js:63-71 | with non-empty templates and bound texts that read as numbers, a value is rejected if and only if a constraint is broken, with that constraint's message |
| `QuantityValidation.MinWins` | assets/cart.js:63-64 | a value below the minimum gets the min message whatever the maximum and step are |
| `QuantityValidation.NoMaxNoUpperCheck` | assets/cart.js:65-66 | without a declared maximum the max error never fires |
| `QuantityValidation.NotANumberOutcome` | assets/cart.js:59-68 | an unparseable value fails only the step check, and only when a step is declared |
| `QuantityValidation.StepScenario` | assets/cart.js:63-69 | with min 1, max 10, step 2, the value 3 is rejected with the step message for "2" and the value 4 is accepted |
| `CartSections.AllDescriptors` | assets/cart.js:117-129 | the unfiltered list has four descriptors naming four different containers, and the two static ones always have a section name |
| `CartSections.KeepDefined` | assets/cart.js:130 | the filter never grows the list and keeps only descriptors with a defined section name |
| `CartSections.KeepDefinedKeeps` | assets/cart.js:130 | the filter keeps the order (a subsequence) and keeps a descriptor if and only if its section name is defined |
| `CartSections.SectionsToRender` | assets/cart.js:116-131 | every returned descriptor has a defined section name |
| `CartSections.SectionsToRenderShape` | assets/cart.js:116-131 | the result is: main-cart-items if its section name is defined, then cart-icon-bubble and cart-live-region-text, then main-cart-footer if its section name is defined |
| `CartSections.SectionsToRenderSelection` | assets/cart.js:116-131 | the result is an ordered subsequence of the fixed list, always holds the two static entries, holds an entry iff it is defined, and has 2 to 4 entries |
| `CartSections.SectionsToRenderDistinct` | assets/cart.js:117-129 | no two returned descriptors name the same container |
| `CartSections.SectionNames` | assets/cart.js:142 | the request's section names are the descriptors' names, position by position |
| `CartSections.Lookup` | assets/cart.js:172 | the fragment for a section is present exactly when the response has that section name, and is its value |
| `CartSections.NewContent` | assets/cart.js:172 | a section's new content is extracted with the descriptor's own selector from the response's entry for its section name, and has no fragment exactly when the response lacks that name |
| `CartSections.Replace` | assets/cart.js:169-172 | one iteration never adds or removes a container |
| `CartSections.Rerender` | assets/cart.js:168-173 | the loop never adds or removes a container |
| `CartSections.RerenderEffect` | assets/cart.js:168-173 | with distinct ids, each listed container that exists holds its section's new content and every container not listed is unchanged |
| `CartSync.FirstPresent` | assets/cart.js:152-153 | the main-page element is chosen when present, else the drawer element, else none |
| `CartSync.Restored` | assets/cart.js:46 | the field's value becomes its committed value and every other field is unchanged |
| `CartSync.RolledBack` | assets/cart.js:152-156 | the line's main-page field, or else its drawer field, returns to its committed value; every other field is unchanged and none is added or removed |
| `CartSync.WithLineError` | assets/cart.js:206-212 | the line's main-page error element, or else its drawer one, shows the message; every other error element keeps its text |
| `CartSync.Toggle` | assets/cart.js:161-166 | an `is-empty` flag is set to the given value when its element exists and stays absent otherwise |
| `CartSync.ResetInput` | assets/cart.js:43-48 | the line's main-page field gets its committed value as value (committed value and validity kept) and the Enter flag clears; every other field and the rest of the page are unchanged; with no such field nothing changes |
| `CartSync.WithValidity` | assets/cart.js:50-51 | the target input's validity message becomes the given message; its value and committed value, every other field and the rest of the page are unchanged |
| `CartSync.Validated` | assets/cart.js:57-84 | validation changes only the quantity fields (no field added or removed) and the Enter flag; the target's validity message becomes the rejection message, or empty on acceptance |
| `CartSync.Dispatched` | assets/cart.js:71-83 | a rejected value dispatches no update; an accepted one dispatches exactly one update for the same line and quantity |
| `CartSync.ValidatedEffect` | assets/cart.js:43-55 | on rejection the target carries the message and otherwise keeps its value unless it is the line's main-page field, which is rolled back (committed value and validity otherwise as before the reset) and clears the Enter flag; every other field and the rest of the page are unchanged; on acceptance only the target's message is cleared |
| `CartSync.RemoveClick` | assets/cart.js:5-10 | a remove click inside a cart items element requests quantity 0 for the button's own line, labelled 'clear', with no focus name and no variant; outside one it requests nothing |
| `CartSync.HasErrors` | assets/cart.js:155 | `if (parsedState.errors)` holds iff the errors field is present and not the empty string |
| `CartSync.RequestBody` | assets/cart.js:139-144 | the body carries the call's line and quantity, the page path, and exactly the names of the sections to render, in order: 2 to 4 non-empty names including cart-icon-bubble and cart-live-region-text |
| `CartSync.Responded` | assets/cart.js:148-193 | a response changes only the quantity fields, the empty flags, the section contents, the line errors and the published events, adds or removes no element, and publishes exactly one cart-items event with the response and variant |
| `CartSync.ErrorResponseEffect` | assets/cart.js:152-159 | a response with errors restores the line's quantity field, shows the errors in the line's error element, leaves every other field, every other error element, the empty flags, the sections and the rest of the page unchanged, and publishes the update |
| `CartSync.SuccessResponseEffect` | assets/cart.js:161-175 | a response without errors sets each present empty flag to item_count == 0, gives each selected existing container its new content and leaves the others alone, clears the line error and keeps the other error texts, does not write the quantity fields, changes nothing else, and publishes the update |
| `CartSync.Failed` | assets/cart.js:195-199 | a transport failure writes the generic error into the cart error region if present and changes nothing else |
| `CartSync.CartItems.Connect` | assets/cart.js:32-37 | connecting subscribes and changes nothing else |
| `CartSync.CartItems.Disconnect` | assets/cart.js:39-41 | disconnecting drops the subscription and changes nothing else |
| `CartSync.CartItems.Deliver` | assets/cart.js:33-36 | a delivered event triggers a refresh iff the element is subscribed and the event's source is not cart-items |
| `CartSync.CartItems.ResetQuantityInput` | assets/cart.js:43-48 | the new page is `ResetInput` of the old one |
| `CartSync.CartItems.SetValidity` | assets/cart.js:50-55 | the new page is the old one with the message set on the target and the line's field reset |
| `CartSync.CartItems.ValidateQuantity` | assets/cart.js:57-84 | returns the update `Dispatched` prescribes and leaves the page as `Validated` prescribes |
| `CartSync.CartItems.UpdateLiveRegions` | assets/cart.js:206-212 | only the line's error text changes, to the message |
| `CartSync.CartItems.ToggleEmpty` | assets/cart.js:161-166 | sets the items flag and each present footer/drawer flag, nothing else |
| `CartSync.CartItems.RenderSections` | assets/cart.js:168-173 | the loop leaves the containers as `Rerender` prescribes and nothing else changed |
| `CartSync.CartItems.ApplyChangeResponse` | assets/cart.js:148-193 | the new page is `Responded` of the old one (see ErrorResponseEffect and SuccessResponseEffect) |
| `CartSync.CartItems.ApplyTransportFailure` | assets/cart.js:195-199 | the new page is `Failed` of the old one |

## Left out

- The network: `fetch`, `JSON.parse` and the request itself; the response is a parameter of `ApplyChangeResponse` and the request a value (`RequestBody`). Overlapping in-flight requests and the order in which they resolve are not modelled.
- HTML parsing: `getSectionInnerHTML` and `DOMParser` are left abstract; a section's new content is the value `Extracted(fragment, selector)`, where the fragment is the response's entry for the section name. Whether the selector matches inside the container (`container.querySelector(selector) || container`) is not distinguished: the container's contents are replaced either way.
- The range and precision of JavaScript numbers: an entered numeral that `parseInt` reads as Infinity (over 308 digits) fails the step check in the page but is an ordinary integer in the model.
- `parseInt` of the attribute texts: each bound carries its text and its parsed integer; bounds that do not parse are not modelled (the entered value may be NaN).
- `onCartUpdate` and the `cart-note` element: fetch-and-swap with errors swallowed; `Deliver` says when a refresh is triggered, not what it fetches.
- The debounce of the `change` listener and the `onChange` selector match; timers and the `aria-hidden` toggles of `updateLiveRegions` and `enableLoading`.
- Focus handling (`trapFocus`, `focus`, `blur`, `select`), `reportValidity`, and the `CartPerformance` markers.
- `enableLoading`/`disableLoading` (disabled class and spinners) and hiding spinners on failure; the `finally` always calls `disableLoading`.
- CartSync.SuccessResponseEffect: quantity fields and line-error elements are kept apart from the section containers, so the view does not capture that re-rendering the items section replaces the line's inputs with the server's markup (new values and committed `value` attributes); `r.fields == p.fields` says only that the handler itself does not write them, and a later rollback in the page uses the re-rendered committed value.
- Exceptions thrown inside the response handler (a line-error element without its `.cart-item__error-text` child, a response without `sections` while a container exists): in the page the `.catch` then runs after a partial update, the generic error is written and nothing is published; in the model the handler always completes and always publishes.
- `querySelector` scoping (`this` versus `document`): the view is one page.

# BStock seller dashboard: a verified model of its statable logic

The BStock seller dashboard is a React single-page application. Apart from
its markup, it holds a few pieces of sequential logic. This project models
them in Dafny and proves what they promise:

- **Socket connection lifecycle** (`SocketProvider`): one nullable handle and
  one `isConnected` flag.
  - `connect` tears down the old handle, picks the endpoint by fallback, then
    creates and starts a new handle.
  - The transport's `connect`/`disconnect` events set the flag.
  - `disconnect()` and the unmount cleanup close the handle.
  - `useSocket` throws outside a provider.
- **Product table** (`ProductsTable`):
  - the clamped page moves, the page-button range and the search reset;
  - the three-way status badge;
  - the `purchaseType` normaliser;
  - the create/update choice of `handleSave`;
  - the `_id` guards of delete, verify and approve;
  - the defaulting of a listing response.
- **Product form** (`ProductModal`): checkbox-list add/remove, single-field
  updates, the reset when the modal opens, and the submit check on
  `skuFamilyId`.
- **Profile card state** (`UserInfoCard`): three independent
  password-visibility flags, two image slots, edit mode and the tab.
- **Profile merges** (`UserProfiles`): the first load from storage treats
  every falsy value as absent (`||`). The fresh-profile merges into the form
  and into the stored user treat only `null`/`undefined` as absent (`??`).
- **Namespaced storage** (`StorageService`): get/set/remove over the
  browser's key/value store, and `clearSellerData` over the six
  `bstock_seller_*` keys.
- **Auth decisions** (`AuthService`):
  - the session kept under the raw keys `"token"` and `"user"`;
  - the classification of a login response;
  - the ordered POST-then-GET endpoint search of `resendVerificationEmail`.

Everything outside the program is a parameter:

- **Storage.** `localStorage` is a `LocalStorage` object whose entries are a
  `map<string, string>`. Whether a given store call throws is a boolean
  parameter of that call.
- **JSON.** `JSON.parse` and `JSON.stringify` are function parameters.
  `parse` gives `None` where the real parser throws.
- **Network.** HTTP requests, the product service and `getProfile` are
  oracles: each handler receives the outcome its call had.
- **Dialogs and files.** The confirmation dialog's answer and the
  FileReader's data URL are inputs.
- **Sockets.** A socket.io client socket is a `Transport` object that records
  how it was created and how often it was told to connect and to disconnect.
  Its events are methods of the provider, so any interleaving can be played
  against it.
- **Values.** JavaScript values are the JSON-shaped `Js.Value`. `Js.Or` and
  `Js.Coalesce` give `||` and `??` exactly. `Js.Get` is optional chaining.
  `Js.Spread` plus `Js.SetProperty` give an object literal with a spread
  followed by `JSON.stringify`, which drops properties whose value is
  `undefined`.

Modules: `Js` (js.dfy), `Text` (text.dfy), `Storage` (storage.dfy), `Auth`
(auth.dfy), `Socket` (socket.dfy), `ProductsModal` (products_modal.dfy),
`ProductsTable` (products_table.dfy), `UserInfoCard` (user_info_card.dfy) and
`UserProfiles` (user_profiles.dfy).

The provider does not tag a handle's events. The listeners at
src/context/SocketProvider.tsx:45-46 are never removed, so a replaced
handle's late `connect` event still sets the flag
(`Socket.StaleHandleStillSetsFlag`).

## Model

| member | source | states |
|---|---|---|
| `Js.Or` | src/pages/UserProfiles.tsx:46-52 | `a or b` is one of its operands: the left one when it is truthy, and the result is truthy exactly when one operand is |
| `Js.Coalesce` | src/pages/UserProfiles.tsx:64-70 | `a ?? b` is one of its operands: the left one unless it is null/undefined, and the result is nullish exactly when both are |
| `Js.OrCoalesceDisagreement` | src/pages/UserProfiles.tsx:46-70 | the two fallbacks differ exactly when the left operand is present, not null, falsy, and different from the right one |
| `Js.Get` | src/pages/UserProfiles.tsx:64-70 | optional property access is defined exactly on objects that have the key, and then yields that property |
| `Js.Spread` | src/pages/UserProfiles.tsx:77-83 | spreading an object copies its fields; anything else contributes no key |
| `Js.SetProperty` | src/pages/UserProfiles.tsx:77-91 | a literal property sets its key, or drops it when the value is undefined, and keeps every other key and value |
| `Js.ToNumber` | src/components/products/ProductsTable.tsx:60-61 | `Number(x)`: undefined and objects are NaN; null, `false`, blank strings and `[]` are 0; `true` is 1; numbers are themselves; other strings are read trimmed; a longer array is NaN; a one-element array converts like its element's text (null and blank text are 0, booleans and objects NaN) |
| `Js.NumberOr` | src/components/products/ProductsTable.tsx:60-61 | a number fallback keeps a non-zero number and replaces NaN and 0 by the fallback |
| `Js.FirstNonEmpty` | src/context/SocketProvider.tsx:34 | a chain of string fallbacks yields the fallback or one of the non-empty candidates, and never "" when the fallback is not "" |
| `Js.FirstNonEmptyPicksFirst` | src/context/SocketProvider.tsx:34 | the chain yields the first candidate that is present and non-empty |
| `Js.FirstNonEmptyAllEmpty` | src/context/SocketProvider.tsx:34 | with no non-empty candidate the chain yields the fallback |
| `Text.TrimStart` | src/components/products/ProductsTable.tsx:87 | the result is a suffix of the input, everything dropped is whitespace, and it does not start with whitespace |
| `Text.TrimEnd` | src/components/products/ProductsTable.tsx:87 | the result is a prefix of the input, everything dropped is whitespace, and it does not end with whitespace |
| `Text.Trim` | src/components/products/ProductsTable.tsx:87 | `s.trim()`: `trimEnd` after `trimStart`; what it keeps is stated by `TrimIsMiddleSlice` and `TrimPadded` |
| `Text.TrimIsMiddleSlice` | src/components/products/ProductsTable.tsx:87 | `trim` keeps one contiguous slice without whitespace at its ends and drops only whitespace around it |
| `Text.TrimStartPadded` | src/components/products/ProductsTable.tsx:87 | leading whitespace in front of a non-whitespace character is exactly what `trimStart` removes |
| `Text.TrimEndPadded` | src/components/products/ProductsTable.tsx:87 | trailing whitespace behind a non-whitespace character is exactly what `trimEnd` removes |
| `Text.TrimPadded` | src/components/products/ProductsTable.tsx:87 | `trim` of a word padded with whitespace on both sides gives back the word (the converse of the middle-slice lemma) |
| `Text.LowerChar` | src/components/products/ProductsTable.tsx:87 | ASCII capitals map to their lower-case letter; every other character is kept |
| `Text.LetterIsNotWhitespace` | src/components/products/ProductsTable.tsx:87 | a character that lower-cases to a letter is not whitespace |
| `Text.ToLower` | src/services/auth/auth.services.ts:143 | lower-casing keeps the length and maps each character by the case mapping |
| `Text.LowerCaseIsFixed` | src/services/auth/auth.services.ts:143 | a string without ASCII capitals is its own lower case |
| `Text.Contains` | src/services/auth/auth.services.ts:144 | `s.includes(t)`: some window of `s` equals `t`, tried from the front; characterised by `ContainsIffOccurs` |
| `Text.ContainsIffOccurs` | src/services/auth/auth.services.ts:144 | `includes` holds exactly when the needle occurs at some index |
| `Storage.SellerKeysDistinctAndPrefixed` | src/constants/storage.ts:6-18 | the six storage keys are pairwise distinct and all start with `bstock_seller_` |
| `Storage.ReadItem` | src/constants/storage.ts:27-37 | a missing key or empty string reads as null; otherwise the parsed value when parsing succeeds, else the raw string |
| `Storage.Serialize` | src/constants/storage.ts:49 | strings are stored verbatim, every other value as its JSON text |
| `Storage.GetItem` | src/constants/storage.ts:27-42 | a throwing store gives null; otherwise the result is what `ReadItem` sees in the entries |
| `Storage.SetItem` | src/constants/storage.ts:47-56 | returns true exactly when the store accepted the write; then the key holds the serialised value, otherwise nothing changed |
| `Storage.RemoveItem` | src/constants/storage.ts:61-69 | returns true exactly when the store accepted the removal; then the key is gone, otherwise nothing changed |
| `Storage.ReadAfterRemove` | src/constants/storage.ts:27-64 | after a removal, reading the key gives null |
| `Storage.ReadAfterWrite` | src/constants/storage.ts:27-56 | reading back a written key gives what the parser makes of the stored text; a non-empty non-JSON string comes back unchanged |
| `Storage.OtherKeysUnaffected` | src/constants/storage.ts:27-69 | a write or a removal at one key leaves what every other key reads as unchanged |
| `Storage.RemoveEach` | src/constants/storage.ts:74-78 | the entries after the `forEach` removes each key in turn, a removal that throws being skipped; characterised by `RemoveEachRemovesSet` |
| `Storage.RemoveEachRemovesSet` | src/constants/storage.ts:74-78 | removing keys one by one, skipping the failed removals, removes exactly the set of keys whose removal succeeded |
| `Storage.ClearSellerData` | src/constants/storage.ts:74-78 | exactly the seller keys whose removal succeeded are gone; every other entry keeps its value |
| `Auth.Persisted` | src/services/auth/auth.services.ts:45-48 | "token" is written only for a non-empty token and "user" (as JSON) only when a user is given; every other key is unchanged |
| `Auth.Cleared` | src/services/auth/auth.services.ts:50-53 | both "token" and "user" are absent afterwards and every other entry is kept |
| `Auth.PersistSession` | src/services/auth/auth.services.ts:45-48 | the store's entries become `Persisted` of the old entries |
| `Auth.ClearSession` | src/services/auth/auth.services.ts:50-53 | the store's entries become `Cleared` of the old entries |
| `Auth.SessionKeysAreNotSellerKeys` | src/services/auth/auth.services.ts:46-52 | the raw session keys are not among the namespaced seller keys, so the two key sets never collide |
| `Auth.BackendMessage` | src/services/auth/auth.services.ts:143 | the lower-cased backend message, or "" when the body or its message is missing |
| `Auth.AsksToVerifyEmail` | src/services/auth/auth.services.ts:144 | the message includes both "verify" and "email" |
| `Auth.ErrorMessage` | src/services/auth/auth.services.ts:164 | the response message, else the error's own message, else the fallback, the first that is non-empty; never "" when the fallback is not |
| `Auth.Decide` | src/services/auth/auth.services.ts:136-167 | not verified exactly when the lower-cased message mentions "verify" and "email"; signed in exactly for status 200 with a token and a user and no such message; the not-verified message is the backend's message, or the default when there is none; a body-less response that does not ask to verify is the "reading 'status'" error; a rejection becomes an error with the response message, else the error message, else the default |
| `Auth.Login` | src/services/auth/auth.services.ts:132-168 | the decision is `Decide`'s; on sign-in the session is cleared and re-persisted with the token and user, otherwise storage is untouched |
| `Auth.SignedInSession` | src/services/auth/auth.services.ts:148-152 | after sign-in "token" and "user" hold the new token and user, and the keys other than those two are the ones that were there |
| `Auth.VerifyEmailBeatsSuccess` | src/services/auth/auth.services.ts:142-153 | example: one status-200 response with a token, a user and the message "Please verify your Email" is not a sign-in |
| `Auth.VerifyEmailMessageAsks` | src/services/auth/auth.services.ts:142-145 | example: the lower-cased "Please verify your Email" mentions both "verify" and "email" |
| `Auth.CandidatePaths` | src/services/auth/auth.services.ts:76-83 | the configured paths come first, then the five fixed fallbacks in order |
| `Auth.Settle` | src/services/auth/auth.services.ts:89-101 | one `try` block: a response with a body succeeds with it, a body-less one throws the "reading 'message'" error, a rejection throws its reason |
| `Auth.AttemptError` | src/services/auth/auth.services.ts:103 | for a path whose two calls both failed, the GET error, or the POST error when the GET error is falsy |
| `Auth.ResendFailure` | src/services/auth/auth.services.ts:110 | the last error's response message, else the default; never "" |
| `Auth.ResendSearch` | src/services/auth/auth.services.ts:85-112 | per path POST then GET, stopping at the first success with its body and the calls made; after the last path the failure message; characterised by `FirstSuccessWins`, `AllFailThrows` and `BothCalls` |
| `Auth.BothCalls` | src/services/auth/auth.services.ts:86-107 | the calls made for failing paths are POST then GET for each path, in order |
| `Auth.FirstSuccessWins` | src/services/auth/auth.services.ts:86-101 | the first path with a successful call decides the result (POST body before GET body), and no later path is requested |
| `Auth.AllFailThrows` | src/services/auth/auth.services.ts:85-112 | when every call fails, every path gets both calls and the error carries the last path's response message or the default |
| `Auth.ResendVerificationEmail` | src/services/auth/auth.services.ts:73-113 | the loop's result and request log equal the recursive search over the candidate paths starting with no error |
| `Socket.Endpoint` | src/context/SocketProvider.tsx:34 | the endpoint is the first non-empty of the custom URL, the provider URL and the environment URL, else `http://localhost:3000`; never "" |
| `Socket.Transport.constructor` | src/context/SocketProvider.tsx:39-44 | a handle is created for the endpoint with the token in its handshake, websocket transport, no credentials and no auto-connect |
| `Socket.Transport.Connect` | src/context/SocketProvider.tsx:47 | a start request is counted on the handle |
| `Socket.Transport.Disconnect` | src/context/SocketProvider.tsx:36 | a close request is counted on the handle |
| `Socket.SocketProvider.constructor` | src/context/SocketProvider.tsx:29-31 | the provider starts with no handle and the flag false |
| `Socket.SocketProvider.Connect` | src/context/SocketProvider.tsx:33-49 | the old handle is closed once; the new handle has the chosen endpoint, the token and the options, is started exactly once and becomes the only open one; the flag is unchanged |
| `Socket.SocketProvider.Disconnect` | src/context/SocketProvider.tsx:51-57 | with a handle: it is closed, the ref is null and the flag false; without one nothing changes |
| `Socket.SocketProvider.Unmount` | src/context/SocketProvider.tsx:59-65 | the current handle, if any, is closed, so every handle ever created is closed |
| `Socket.SocketProvider.OnConnectEvent` | src/context/SocketProvider.tsx:45 | a connect event from any handle sets the flag |
| `Socket.SocketProvider.OnDisconnectEvent` | src/context/SocketProvider.tsx:46 | a disconnect event from any handle clears the flag |
| `Socket.DisconnectTwice` | src/context/SocketProvider.tsx:51-57 | two disconnects in a row leave the state one leaves |
| `Socket.StaleHandleStillSetsFlag` | src/context/SocketProvider.tsx:45-48 | after a reconnect, the replaced handle's connect event still sets the flag |
| `Socket.UseSocket` | src/context/SocketProvider.tsx:81-85 | the hook fails with its message exactly when there is no provider, and returns the context otherwise |
| `ProductsModal.Without` | src/components/products/ProductsModal.tsx:120 | filtering leaves no copy of the value, keeps every other element, and does not grow the list |
| `ProductsModal.WithoutAppend` | src/components/products/ProductsModal.tsx:120 | filtering distributes over concatenation, so the kept elements keep their order |
| `ProductsModal.WithoutCounts` | src/components/products/ProductsModal.tsx:120 | filtering removes every occurrence of the value and keeps each other element as often as it occurred |
| `ProductsModal.WithoutAbsent` | src/components/products/ProductsModal.tsx:120 | filtering out a value the list lacks gives the list back |
| `ProductsModal.Toggle` | src/components/products/ProductsModal.tsx:117-120 | checking appends the value at the end; unchecking filters it out |
| `ProductsModal.CheckThenUncheck` | src/components/products/ProductsModal.tsx:117-120 | checking then unchecking a box removes the value, which restores a list that lacked it |
| `ProductsModal.WithList` | src/components/products/ProductsModal.tsx:121 | setting one list field leaves the other lists and every scalar field unchanged |
| `ProductsModal.WithText` | src/components/products/ProductsModal.tsx:111 | setting one text field leaves the other text fields and every non-text field unchanged |
| `ProductsModal.WithNumber` | src/components/products/ProductsModal.tsx:105 | setting one number field leaves the others and every non-number field unchanged |
| `ProductsModal.CheckboxChanged` | src/components/products/ProductsModal.tsx:114-123 | only the named list changes, and it becomes the toggled list |
| `ProductsModal.SelectChanged` | src/components/products/ProductsModal.tsx:109-112 | only the named select's field changes, to the selected value |
| `ProductsModal.NumberOrZero` | src/components/products/ProductsModal.tsx:105 | a number input keeps the parsed number and falls back to 0 on NaN |
| `ProductsModal.InputChanged` | src/components/products/ProductsModal.tsx:101-107 | a text input sets its field, a number input its number (0 on NaN), the checkbox the negotiable flag; nothing else changes |
| `ProductsModal.OnOpen` | src/components/products/ProductsModal.tsx:67-99 | opening with an item copies every field of it, opening without one resets to empty strings, lists, zeros and false, and a closed modal keeps the form |
| `ProductsModal.Submit` | src/components/products/ProductsModal.tsx:125-134 | an empty SKU family id only raises the alert; otherwise the form is saved and then the modal closed, and neither save nor close happens without an id |
| `ProductsModal.ModalState.constructor` | src/components/products/ProductsModal.tsx:46-58 | the form starts as the empty form |
| `ProductsModal.ModalState.HandleCheckboxChange` | src/components/products/ProductsModal.tsx:114-123 | the form becomes `CheckboxChanged` of the old form |
| `ProductsModal.ModalState.HandleSelectChange` | src/components/products/ProductsModal.tsx:109-112 | the form becomes `SelectChanged` of the old form |
| `ProductsModal.ModalState.HandleInputChange` | src/components/products/ProductsModal.tsx:101-107 | the form becomes `InputChanged` of the old form |
| `ProductsModal.ModalState.ResetOnOpen` | src/components/products/ProductsModal.tsx:67-99 | the form becomes `OnOpen` of the old form |
| `ProductsModal.ModalState.HandleSubmit` | src/components/products/ProductsModal.tsx:125-134 | the effects are those `Submit` gives for the current form |
| `ProductsTable.PreviousPage` | src/components/products/ProductsTable.tsx:422 | Previous goes one page back and never below page 1 |
| `ProductsTable.NextPage` | src/components/products/ProductsTable.tsx:450 | Next goes one page on and never above the last page |
| `ProductsTable.PageMovesInRange` | src/components/products/ProductsTable.tsx:421-456 | inside the page range both moves stay in it and undo each other |
| `ProductsTable.DisabledButtonsDoNothing` | src/components/products/ProductsTable.tsx:421-456 | a move leaves the page unchanged exactly when its button is disabled |
| `ProductsTable.NextMovesBackPastTheEnd` | src/components/products/ProductsTable.tsx:450 | past the last page, Next moves back to the last page |
| `ProductsTable.PageButtons` | src/components/products/ProductsTable.tsx:430-431 | the buttons are 1, 2, ... in increasing order, at most five, none beyond the last page |
| `ProductsTable.PageButtonsMembership` | src/components/products/ProductsTable.tsx:430-431 | a page has a button exactly when it lies between 1 and the smaller of 5 and the page count |
| `ProductsTable.StatusOf` | src/components/products/ProductsTable.tsx:215-235 | approved exactly when `isApproved` is truthy; pending exactly when not approved but verified; under verification otherwise |
| `ProductsTable.StatusLabel` | src/components/products/ProductsTable.tsx:215-235 | the badge texts are "Approved", "Pending Approval" and "Under Verification" |
| `ProductsTable.StatusLabelsDistinct` | src/components/products/ProductsTable.tsx:215-235 | different statuses show different badges |
| `ProductsTable.JsString` | src/components/products/ProductsTable.tsx:87 | `String` of a string is the string, of undefined "undefined" |
| `ProductsTable.NormalizePurchaseType` | src/components/products/ProductsTable.tsx:86-89 | "full" exactly when the trimmed, lower-cased `String` of the value is "full", else "partial"; characterised by `FullExactlyForPaddedWord` |
| `ProductsTable.FullIsPaddedWord` | src/components/products/ProductsTable.tsx:86-89 | whatever normalises to `full` is the word "full" in some letter case with only whitespace around it |
| `ProductsTable.PaddedWordIsFull` | src/components/products/ProductsTable.tsx:86-89 | the word "full" in any letter case with only whitespace around it normalises to `full` |
| `ProductsTable.FullExactlyForPaddedWord` | src/components/products/ProductsTable.tsx:86-89 | both directions together: `full` exactly for a padded "full" in any case |
| `ProductsTable.PaddedUpperCaseIsFull` | src/components/products/ProductsTable.tsx:86-89 | " FULL" followed by a line feed normalises to `full` |
| `ProductsTable.NormalizeBareWord` | src/components/products/ProductsTable.tsx:86-89 | a lower-case word without surrounding whitespace is `full` exactly when it is "full" |
| `ProductsTable.NormalizeIsIdempotent` | src/components/products/ProductsTable.tsx:86-89 | normalising the normaliser's own output gives the same purchase type |
| `ProductsTable.AbsentPurchaseTypeIsPartial` | src/components/products/ProductsTable.tsx:86-89 | a form without a purchase type (the modal's form has none) is saved as `partial` |
| `ProductsTable.SaveRequestFor` | src/components/products/ProductsTable.tsx:92-98 | the request is an update exactly when the edited product has a truthy `_id`, which is its id; otherwise a create; both carry the processed data |
| `ProductsTable.AddAlwaysCreates` | src/components/products/ProductsTable.tsx:92-98 | with no product being edited, saving creates |
| `ProductsTable.PlanAction` | src/components/products/ProductsTable.tsx:113-187 | without a truthy `_id` nothing happens; a declined dialog sends nothing; a sent action uses the id and refetches when the call resolved and, for verify and approve, did not return `false` |
| `ProductsTable.UndefinedResultRefetches` | src/components/products/ProductsTable.tsx:151-155 | a verify or approve call that resolves to undefined still refetches |
| `ProductsTable.DocsOf` | src/components/products/ProductsTable.tsx:58 | the docs are the response's `data.docs` when that is an array under truthy response and data, and `[]` in every other case |
| `ProductsTable.ReadListing` | src/components/products/ProductsTable.tsx:58-61 | the page count is the numeric `totalPages` or 1, never 0; the total is the numeric `totalDocs`, else the number of docs |
| `ProductsTable.EmptyResponseDefaults` | src/components/products/ProductsTable.tsx:58-61 | a response without data lists nothing, with total 0 on one page |
| `ProductsTable.DocsWithoutCounts` | src/components/products/ProductsTable.tsx:58-61 | docs without counts give the docs' length as total and one page |
| `ProductsTable.Refreshed` | src/components/products/ProductsTable.tsx:50-68 | a resolved listing replaces the docs and counts; a thrown one keeps them |
| `ProductsTable.TableState.constructor` | src/components/products/ProductsTable.tsx:33-43 | the table starts on page 1 with no search, no products, total 0, one page, loading, and no modal |
| `ProductsTable.TableState.FetchProducts` | src/components/products/ProductsTable.tsx:50-68 | asks for the current page, 10 items and the search term; the listing becomes `Refreshed` of the old one; loading ends false; page, search and modal are unchanged |
| `ProductsTable.TableState.ChangeSearch` | src/components/products/ProductsTable.tsx:252-255 | typing sets the search term and resets the page to 1, changing nothing else |
| `ProductsTable.TableState.ClickPrevious` | src/components/products/ProductsTable.tsx:422 | the page becomes `PreviousPage` of the old page |
| `ProductsTable.TableState.ClickNext` | src/components/products/ProductsTable.tsx:449-451 | the page becomes `NextPage` of the old page |
| `ProductsTable.TableState.ClickPage` | src/components/products/ProductsTable.tsx:435 | a page button sets its number, which lies within the page range |
| `ProductsTable.TableState.HandleEdit` | src/components/products/ProductsTable.tsx:108-111 | editing a row remembers it and opens the modal |
| `ProductsTable.TableState.AddProduct` | src/components/products/ProductsTable.tsx:269-272 | Add Product clears the edited product and opens the modal |
| `ProductsTable.TableState.CloseModal` | src/components/products/ProductsTable.tsx:463-466 | closing the modal clears the edited product |
| `ProductsTable.TableState.HandleView` | src/components/products/ProductsTable.tsx:189-191 | viewing a row selects it |
| `ProductsTable.TableState.HandleSave` | src/components/products/ProductsTable.tsx:70-106 | sends `SaveRequestFor` the edited product and the data with its purchase type normalised; on success closes the modal, clears the edited product and refetches; on failure changes nothing |
| `ProductsTable.TableState.FinishSave` | src/components/products/ProductsTable.tsx:99-101 | after a successful request the modal is closed, the edited product cleared and the listing refetched; after a failed one nothing changes |
| `ProductsTable.TableState.HandleAction` | src/components/products/ProductsTable.tsx:113-187 | the plan is `PlanAction`'s; the listing is refetched exactly when the plan says so, and nothing else changes |
| `UserInfoCard.Toggle` | src/components/UserProfile/UserInfoCard.tsx:44-46 | toggling negates the named flag and leaves the other two |
| `UserInfoCard.ToggleTwice` | src/components/UserProfile/UserInfoCard.tsx:44-46 | toggling a flag twice restores the record |
| `UserInfoCard.TogglesCommute` | src/components/UserProfile/UserInfoCard.tsx:44-46 | toggles of two flags commute, so the flags are independent |
| `UserInfoCard.PasswordInputType` | src/components/UserProfile/UserInfoCard.tsx:360 | a password input shows plain text exactly while its flag is set |
| `UserInfoCard.ButtonShown` | src/components/UserProfile/UserInfoCard.tsx:451-471 | Save exactly while editing; Edit exactly when not editing and on the profile tab; no button otherwise |
| `UserInfoCard.CardState.constructor` | src/components/UserProfile/UserInfoCard.tsx:23-37 | not editing, on the profile tab, all three passwords hidden, no images |
| `UserInfoCard.CardState.HandleSave` | src/components/UserProfile/UserInfoCard.tsx:39-42 | saving leaves edit mode |
| `UserInfoCard.CardState.StartEditing` | src/components/UserProfile/UserInfoCard.tsx:459-462 | the Edit button, shown only off edit mode on the profile tab, enters edit mode |
| `UserInfoCard.CardState.SelectTab` | src/components/UserProfile/UserInfoCard.tsx:76-96 | a tab button makes its tab active |
| `UserInfoCard.CardState.TogglePassword` | src/components/UserProfile/UserInfoCard.tsx:44-46 | the flags become `Toggle` of the old flags |
| `UserInfoCard.CardState.RemoveImage` | src/components/UserProfile/UserInfoCard.tsx:64-70 | clears the logo slot for the logo and the certificate slot otherwise, leaving the other slot |
| `UserInfoCard.CardState.HandleImageUpload` | src/components/UserProfile/UserInfoCard.tsx:48-62 | a chosen file's data goes to the logo slot for the logo and the certificate slot otherwise; no file, no change |
| `UserInfoCard.UploadThenRemove` | src/components/UserProfile/UserInfoCard.tsx:48-70 | uploading into a slot and removing it empties that slot and leaves the other as it was |
| `UserProfiles.WithField` | src/pages/UserProfiles.tsx:98-101 | setting a field changes that field only |
| `UserProfiles.OrEmpty` | src/pages/UserProfiles.tsx:46-52 | a truthy value is kept, anything falsy or missing becomes "" |
| `UserProfiles.StoredBusiness` | src/pages/UserProfiles.tsx:43 | the stored business profile when truthy, else the empty object |
| `UserProfiles.InitialLoad` | src/pages/UserProfiles.tsx:37-55 | a falsy stored user leaves the form; otherwise name, email, phone from `mobileNumber` and the business fields from `businessProfile` are set with falsy-to-"" fallback; country code and passwords are kept |
| `UserProfiles.LoadedFieldsTruthyOrEmpty` | src/pages/UserProfiles.tsx:46-52 | after the first load every loaded field is truthy or "" |
| `UserProfiles.CoalesceTo` | src/pages/UserProfiles.tsx:64-70 | a value that is not null/undefined is kept, otherwise the fallback |
| `UserProfiles.ProfileData` | src/pages/UserProfiles.tsx:61 | the profile's `data` when truthy, else the empty object |
| `UserProfiles.FromProfile` | src/pages/UserProfiles.tsx:67-70 | the top-level profile field unless null/undefined, else the one in `businessProfile` |
| `UserProfiles.FreshMerge` | src/pages/UserProfiles.tsx:62-71 | each field takes the profile's value unless nullish, business fields then try `businessProfile`, then the previous value; country code and passwords are kept |
| `UserProfiles.EmptyProfileKeepsForm` | src/pages/UserProfiles.tsx:61-71 | an empty profile leaves the form as it was |
| `UserProfiles.EmptyStringOverridesOnlyInFreshMerge` | src/pages/UserProfiles.tsx:46-70 | an API "" or 0 overwrites the previous value while null falls back, and the first load turns a stored 0 into "" |
| `UserProfiles.BusinessFieldPrecedence` | src/pages/UserProfiles.tsx:67-70 | a top-level business field beats `businessProfile`, which beats the previous value, also when the top-level one is null |
| `UserProfiles.PrevBusiness` | src/pages/UserProfiles.tsx:83 | the fields of the stored user's business profile when it is truthy, else no fields |
| `UserProfiles.MergedBusiness` | src/pages/UserProfiles.tsx:82-90 | the stored business profile spread, then the six literal properties over it; characterised by `MergedBusinessKeepsOtherKeys`, `MergedBusinessFields` and `MergedImageFields` |
| `UserProfiles.MergedBusinessKeepsOtherKeys` | src/pages/UserProfiles.tsx:82-90 | the merged business profile keeps every other key of the stored one with its value and adds no key besides the six it sets |
| `UserProfiles.MergedBusinessFields` | src/pages/UserProfiles.tsx:84-87 | business name, country, currency and address go profile, then `businessProfile`, then stored, each step skipping only null/undefined |
| `UserProfiles.MergedImageFields` | src/pages/UserProfiles.tsx:88-89 | logo and certificate go profile, then stored, with no `businessProfile` step |
| `UserProfiles.PrevUser` | src/pages/UserProfiles.tsx:76 | the stored user when truthy, else the empty object |
| `UserProfiles.StoredMerge` | src/pages/UserProfiles.tsx:74-92 | the user written back is always an object |
| `UserProfiles.StoredMergeKeepsOtherKeys` | src/pages/UserProfiles.tsx:77-83 | the written user keeps every other key of the stored user with its value and adds no key besides the four it sets |
| `UserProfiles.StoredMergeFields` | src/pages/UserProfiles.tsx:78-91 | name, email and mobile number go profile, then stored, skipping only null/undefined; `businessProfile` is the merged business profile |
| `UserProfiles.LogoSkipsBusinessProfile` | src/pages/UserProfiles.tsx:84-89 | a logo sent only inside `businessProfile` is ignored for the stored one, while the business name there is taken |
| `UserProfiles.MergesAgreeOnProfileValues` | src/pages/UserProfiles.tsx:62-91 | for fields the profile sets, the form and the stored user receive the same value |
| `UserProfiles.ProfilePage.constructor` | src/pages/UserProfiles.tsx:23-35 | every form field starts as "" |
| `UserProfiles.ProfilePage.LoadStored` | src/pages/UserProfiles.tsx:37-55 | the form becomes `InitialLoad` of the stored user (null when the store throws) |
| `UserProfiles.ProfilePage.ApplyProfile` | src/pages/UserProfiles.tsx:57-95 | a fetched profile merges into the form and the merged user is written back unless the write throws; a failed fetch changes nothing |
| `UserProfiles.ProfilePage.HandleChange` | src/pages/UserProfiles.tsx:98-101 | the named field takes the typed text |

## Left out

- **Floating point.** Numbers are integers. Three things are therefore not
  modelled: `parseFloat`/`parseInt` in `handleSave`
  (src/components/products/ProductsTable.tsx:74-85, the identity on numbers),
  the numeric-literal grammar behind `Number(string)` (a parameter of
  `Js.ToNumber`), and `formatPrice`.
- ProductsModal.NumberOrZero: the `parseFloat` result is an input, so
  partial parses such as "12abc" are not modelled.
- **Date formatting.** `formatExpiryTime` formats dates through date-fns,
  and `getProductImageSrc` returns a constant.
- **Foreign calls and UI.** Swal confirmation dialogs are a `confirmed`
  input. FileReader is a `dataUrl` input, and its asynchronous `onload` is
  folded into the upload handler. Toasts, `console` output, JSX markup and
  styling are left out.
- **React scheduling.** Effects, re-renders, memoisation and the order in
  which asynchronous handlers finish are left out. Effects are explicit
  method calls; `fetchProducts` and the `getProfile` continuation each run
  to completion. The `socket` member of the context value is read from the
  ref when the value is memoised; the model passes the context value to
  `UseSocket` as it is.
- **Socket.io.** Transport behaviour (handshake timing, when `disconnect`
  events fire) is left out: events are calls of the provider's listener
  methods. The typed send/receive event maps are types only.
- **The `url` prop.** `Socket.SocketProvider.url` is fixed for the
  provider's life. `connect` is memoised on `[url]`
  (src/context/SocketProvider.tsx:33-49), so a changed prop would be used by
  the next connect; that change is not modelled.
- **Unicode case mapping.** `Text.ToLower` maps ASCII capitals only. For the
  comparisons with "full", "verify" and "email" this gives JavaScript's
  results with no exception: no non-ASCII character lower-cases to one of
  their letters (the Kelvin sign gives "k", and "İ" gives "i" followed by
  a combining dot, which cannot complete a match).
- **Spread of non-objects.** `Js.Spread` gives no keys for strings and
  arrays, whose index keys a spread would copy.
- **purchaseType values.** `ProductsTable.JsString` covers only strings and
  `undefined`. `String` of numbers, objects and arrays is not modelled.
- **The row handed to the modal.** The table passes its row object
  (`editProduct`) to the modal as `editItem`; the model passes a product
  form. The row's differently-shaped fields (`simType` a string, not a list)
  are not modelled.
- **Field names.** `handleChange` in `UserProfiles` can add keys from
  inputs named outside the eleven form fields; only the form's fields are
  modelled.
- **Declared response types.** Login responses are taken at their declared
  TypeScript types (src/services/auth/auth.services.ts:5-20).
  `Auth.UserJson` stores only the five `User` fields, while `JSON.stringify`
  of the backend's `customer` (lines 47 and 139) keeps any extra fields. The
  backend message is a string, although `toString()` at line 143 accepts
  other values. A missing body stands for an undefined `res.data`; a `null`
  one would throw "Cannot read properties of null (reading 'status')" at
  line 148 instead. The TypeError texts `StatusOfUndefined` and
  `MessageOfUndefined` are V8's wording.
- **Raw localStorage errors in auth.** `localStorage` exceptions inside
  `persistSession`/`clearSession` would turn a login into an error; the
  session store there never throws.
- **JSON codec.** `JSON.parse` and `JSON.stringify` are parameters and are
  not verified.
- **Other services.** `AuthService.register`, `AuthService.verifyEmail`,
  `AuthService.getProfile` and `ProductService` are not part of this model;
  their outcomes are inputs. src/services/version/productVersion.services.ts
  and src/utils/api.ts are not part of this model either:
  - thin HTTP wrappers with the same message fallback;
  - a fetch wrapper whose URL building is `encodeURIComponent`.
- **Other pages and components.** `UploadExcelModal`, the Activities and
  Actions pages, and the view-only product modal's display are not modelled.

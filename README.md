# NeoNamiShop mobile storefront: cart, sign-in and image URLs in Dafny

This project models the behavioural core of the NeoNamiShop mobile app, a
React Native storefront, and proves properties of that model:

- **The cart store** (`CartContext`). It is an ordered list of line items,
  with at most one line per product. Each line's quantity is bounded by the
  stock ceiling (`maxQuantity`) captured when the line was added. The list
  is mirrored under the key `"cart"` in secure storage. Each operation's new
  list is a pure function (`AddedTo`, `WithQuantity`, `Without`). The
  class `CartStore` applies these functions to its `items` field and
  rewrites the stored record. The reference meaning of a cart is a
  dictionary from product id to line (`View`). The lemmas prove what each
  operation does to that dictionary, and that uniqueness of ids and the
  quantity bounds are preserved.
- **The authentication session** (`AuthContext`). It holds the signed-in
  user, whether the sign-in dialog is open, and the last authentication
  error. It restores the user from four keys of the device's key-value
  storage (`Storage.AsyncStorage`) and removes them on logout.
- **The sign-in / registration dialog** (`AuthModal`). It covers:
  - the three field rules and the email pattern `^\S+@\S+\.\S+$`, proved
    equal to an independent split-based definition;
  - the class `AuthForm`, whose `ValidateForm` fills in the messages step
    by step;
  - the request sent to `/users/login` or `/users/`;
  - the error-message fallback;
  - the proof that what a successful sign-in stores is what start-up
    restores.
- **The stored user id** (`UserUtils`). It is read back only when it has
  36 hex-or-dash characters. The model proves this against a
  character-by-character matcher of the anchored pattern, and proves the
  set/get round trip.
- **The image-URL rewrite** (`Api`). This is the response interceptor that
  replaces the `http://host` prefix of every product image URL with the
  configured server URL. The model characterises the greedy match
  exactly. It proves that a URL without the anchored prefix is untouched,
  and that the rewrite is idempotent when the server URL is a bare origin,
  as the default is.

The device's storages are maps from keys to values. The network's answers
and the platform's rejections of storage calls are inputs to the methods:
a `ServerOutcome`, and `fault` flags. JavaScript `null`/`undefined` is
`Wrappers.Option`.

## Model

| member | source | states |
|---|---|---|
| CartContext.Clamp | contexts/CartContext.tsx:66 | the stored quantity is at least 1, at most `maxQuantity` whenever that is at least 1, and the requested quantity itself when it is in range |
| CartContext.Find | contexts/CartContext.tsx:49 | a line is found exactly when some line has the product id, and the found line is in the cart and has that id |
| CartContext.Merged | contexts/CartContext.tsx:51-55 | the merge keeps the length; lines for the product are raised by the added quantity and capped at their own ceiling; every other line stays in place |
| CartContext.AddedTo | contexts/CartContext.tsx:49-56 | with an existing line, the length and every line's id are kept and other products' lines are unchanged; without one, the incoming item is appended unchanged at the end |
| CartContext.WithQuantity | contexts/CartContext.tsx:64-68 | every line for the id gets `max(1, min(n, maxQuantity))`, every other line and the length are unchanged |
| CartContext.Without | contexts/CartContext.tsx:76 | no line for the id is left, the list does not grow, and a list without the id is returned unchanged |
| CartContext.ViewKeys | contexts/CartContext.tsx:49 | a product id is in the cart's dictionary exactly when some line carries it |
| CartContext.AddedToKeepsOrder | contexts/CartContext.tsx:50-56 | after adding, every old position keeps its product id, and lines of other products are unchanged |
| CartContext.AddedToMergesQuantity | contexts/CartContext.tsx:49-55 | a line of the added product becomes `min(old + added, that line's maxQuantity)`; the incoming ceiling is ignored |
| CartContext.AddedToView | contexts/CartContext.tsx:47-59 | with unique ids, adding keeps ids unique and updates the dictionary at the product: bumped if present, the new item if absent |
| CartContext.MergedView | contexts/CartContext.tsx:50-55 | merging changes the dictionary only at the added product, to its bumped line |
| CartContext.AppendView | contexts/CartContext.tsx:56 | appending a new product keeps ids unique and adds exactly that entry to the dictionary |
| CartContext.AddedToWellFormed | contexts/CartContext.tsx:47-59 | unique ids and per-line bounds survive an add whose quantity lies within its own ceiling |
| CartContext.RepeatedAdds | contexts/CartContext.tsx:47-59 | adding the same new product several times leaves one appended line whose quantity is the sum capped at the first item's ceiling |
| CartContext.WithQuantityBounds | contexts/CartContext.tsx:66 | the updated line holds at least 1 unit and at most its ceiling when that is at least 1 |
| CartContext.WithQuantityView | contexts/CartContext.tsx:62-72 | updating changes the dictionary only at the id, to the clamped quantity, and not at all when the id is absent |
| CartContext.WithQuantityWellFormed | contexts/CartContext.tsx:64-68 | unique ids and per-line bounds survive every update |
| CartContext.WithQuantityAbsent | contexts/CartContext.tsx:64-68 | updating an absent id yields an identical list |
| CartContext.WithoutView | contexts/CartContext.tsx:76 | with unique ids, removal deletes exactly the id from the dictionary |
| CartContext.WithoutLine | contexts/CartContext.tsx:76 | with unique ids, removing a line's product drops that line and keeps the others in order |
| CartContext.WithoutIdempotent | contexts/CartContext.tsx:76 | removing twice equals removing once |
| CartContext.WithoutMember | contexts/CartContext.tsx:76 | a line survives removal exactly when it was in the cart and belongs to another product |
| CartContext.WithoutWellFormed | contexts/CartContext.tsx:76 | unique ids and per-line bounds survive removal |
| CartContext.AddTwiceScenario | contexts/CartContext.tsx:49-56 | one unit with ceiling 5, then three more of the same product, leaves a single line of 4 |
| CartContext.UpdateClampScenario | contexts/CartContext.tsx:64-67 | asking for 5 units of a product with ceiling 1 keeps the line at 1 |
| CartContext.CartStore.Load | contexts/CartContext.tsx:33-41 | the list starts empty and is replaced by the stored record when there is one |
| CartContext.CartStore.AddToCart | contexts/CartContext.tsx:47-60 | from a store whose record mirrors its list, the list becomes `AddedTo` of the old list, the "cart" record is overwritten with it, the mirror is kept, and well-formedness is kept for an in-bounds item |
| CartContext.CartStore.UpdateQuantity | contexts/CartContext.tsx:62-72 | from a mirrored store, the list becomes `WithQuantity` of the old list, the record is overwritten with it, the mirror is kept, and well-formedness is kept |
| CartContext.CartStore.RemoveItem | contexts/CartContext.tsx:74-80 | from a mirrored store, the list becomes `Without` of the old list, the record is overwritten with it, the mirror is kept, and well-formedness is kept |
| CartContext.CartStore.ClearCart | contexts/CartContext.tsx:82-85 | from a mirrored store, the list is emptied and the record deleted rather than overwritten, leaving other records alone; the mirror is kept |
| Storage.Lookup | app/utils/UserUtils.ts:6 | a read yields the stored value exactly when the key is present |
| Storage.SetAll | components/AuthModal.tsx:97-102 | a multi-write leaves the old keys plus exactly the written keys; unwritten keys keep their values, and each written key ends with the value of its last pair |
| Storage.RemoveAll | contexts/AuthContext.tsx:65 | a multi-removal drops exactly the listed keys and keeps every other value |
| Storage.AsyncStorage.GetItem | app/utils/UserUtils.ts:6 | a read that is not rejected yields the stored value, or null when the key is absent |
| Storage.AsyncStorage.SetItem | app/utils/UserUtils.ts:16 | an accepted write sets the key to the value; a rejected one changes nothing |
| Storage.AsyncStorage.RemoveItem | app/utils/UserUtils.ts:24 | an accepted removal deletes the key; a rejected one changes nothing |
| Storage.AsyncStorage.MultiGet | contexts/AuthContext.tsx:34-39 | a read that is not rejected yields one value per key, in order |
| Storage.AsyncStorage.MultiSet | components/AuthModal.tsx:97-102 | an accepted write applies the pairs left to right; a rejected one changes nothing |
| Storage.AsyncStorage.MultiRemove | contexts/AuthContext.tsx:65 | an accepted removal drops the keys; a rejected one changes nothing |
| AuthContext.Truthy | contexts/AuthContext.tsx:41 | a stored value is truthy exactly when it is neither missing nor the empty string |
| AuthContext.RestoredUser | contexts/AuthContext.tsx:41-47 | a user is restored exactly when all four keys hold non-empty values, and then carries those values |
| AuthContext.ErrorOrNull | contexts/AuthContext.tsx:60 | an absent or empty error becomes no error; any other is kept |
| AuthContext.NothingRestoredAfterLogout | contexts/AuthContext.tsx:65 | after the four keys are removed, no user can be restored, whatever else is stored |
| AuthContext.RoleTakenUnchecked | contexts/AuthContext.tsx:46 | any non-empty stored role string is taken over as the role, unchecked |
| AuthContext.AuthSession.constructor | contexts/AuthContext.tsx:27-30 | the session starts with no user, the dialog closed, no error and not loading |
| AuthContext.AuthSession.OpenAuthModal | contexts/AuthContext.tsx:80-83 | the dialog opens and the error is cleared; the user is not touched |
| AuthContext.AuthSession.CloseAuthModal | contexts/AuthContext.tsx:84-87 | the dialog closes and the error is cleared; the user is not touched |
| AuthContext.AuthSession.ContextLogin | contexts/AuthContext.tsx:58-61 | the user is set as given and the error becomes `error || null` |
| AuthContext.AuthSession.CheckAuthState | contexts/AuthContext.tsx:32-52 | the user becomes the restored one when all four values are non-empty, and stays as it was otherwise or on a failed read |
| AuthContext.AuthSession.Logout | contexts/AuthContext.tsx:63-71 | the user is cleared only after the four keys are removed; on a failed removal neither changes |
| AuthModal.MatchesEmailPattern | components/AuthModal.tsx:43 | an email that passes has at least 5 characters, an '@', a '.' and no whitespace; `MatchesEmailPatternIff` gives the exact meaning |
| AuthModal.MatchesEmailPatternIff | components/AuthModal.tsx:43 | the positional test holds exactly when the email splits as non-empty, whitespace-free `local@domain.suffix` |
| AuthModal.BlankDoesNotMatch | components/AuthModal.tsx:40-45 | a blank email never matches the pattern, so it gets the "required" message and never the format one |
| AuthModal.EmailError | components/AuthModal.tsx:40-46 | a blank email is required; a non-blank one passes exactly when it matches the pattern, and gets the format message when it does not |
| AuthModal.PasswordError | components/AuthModal.tsx:49-55 | an untrimmed password passes exactly at 6 or more characters; empty is "required", 1 to 5 is "too short" |
| AuthModal.LoginError | components/AuthModal.tsx:57-66 | the login is unchecked when signing in; when registering, a blank login is required, and a non-blank one passes exactly at 3 untrimmed characters and is "too short" below |
| AuthModal.FormErrors | components/AuthModal.tsx:31-69 | each field receives at most one message, from its own rule, and the login none when signing in |
| AuthModal.FormAcceptedIff | components/AuthModal.tsx:31-70 | the form is clear exactly when the email splits as the pattern says, the password has 6 characters and, when registering, the login is non-blank with 3 |
| AuthModal.RequestFor | components/AuthModal.tsx:81-88 | sign-in posts to `/users/login` without a login; registration posts to `/users/` with it; email and password are sent as typed |
| AuthModal.ErrorMessage | components/AuthModal.tsx:109-111 | the reported error is the first non-empty of the response message, the error's message and the generic server error |
| AuthModal.SessionPairs | components/AuthModal.tsx:97-102 | sign-in writes exactly the four session keys, in the order start-up reads them, and those values alone restore the user when its fields are non-empty |
| AuthModal.SessionWrites | components/AuthModal.tsx:97-102 | the sign-in write sets the four session keys to the user's fields |
| AuthModal.RestoreAfterSignIn | components/AuthModal.tsx:97-102 | what sign-in stores, start-up restores: the same user when its fields are non-empty, nothing otherwise |
| AuthModal.UserIdAfterSignIn | components/AuthModal.tsx:98 | the id sign-in stores is read back by the user-id helper exactly when it has the UUID-like format |
| AuthModal.AuthForm.constructor | components/AuthModal.tsx:17-29 | the dialog opens in sign-in mode with empty fields and no messages |
| AuthModal.AuthForm.ValidateForm | components/AuthModal.tsx:31-70 | the messages shown are those of the three field rules, and the form is valid exactly when none is raised |
| AuthModal.AuthForm.HandleSwitchMode | components/AuthModal.tsx:116-126 | the mode flips and the three inputs and three messages are emptied |
| AuthModal.AuthForm.HandleAuth | components/AuthModal.tsx:72-114 | nothing is sent and nothing but the messages changes when validation fails; otherwise it sends `RequestFor` the inputs; a thrown error signs out with `ErrorMessage`; a returned user is stored, signed in and the dialog closed; "user not found" is shown under the password |
| UserUtils.IsUserIdFormat | app/utils/UserUtils.ts:7 | the format test accepts exactly what the matcher of `^[0-9a-fA-F-]{36}$` accepts |
| UserUtils.MatchesClassRepeatIff | app/utils/UserUtils.ts:7 | the character-by-character matcher of `^[0-9a-fA-F-]{n}$` accepts exactly the strings of n class characters |
| UserUtils.CheckedUserId | app/utils/UserUtils.ts:7 | a stored id is returned, unchanged, exactly when it is 36 hex-or-dash characters |
| UserUtils.MissingOrEmptyRejected | app/utils/UserUtils.ts:6-7 | a missing or empty stored value yields null |
| UserUtils.DashPositionsUnchecked | app/utils/UserUtils.ts:7 | dash positions are not checked: 36 dashes are accepted |
| UserUtils.DashesOptional | app/utils/UserUtils.ts:7 | dashes are not required: 36 hex digits of either case are accepted |
| UserUtils.CanonicalUuidAccepted | app/utils/UserUtils.ts:7 | a canonical UUID is accepted and a 35-character prefix of it is not |
| UserUtils.SetThenGet | app/utils/UserUtils.ts:14-16 | after storing v, the read yields v exactly when v has the format, and null otherwise |
| UserUtils.RemoveThenGet | app/utils/UserUtils.ts:22-24 | after removal the read yields null |
| UserUtils.GetUserId | app/utils/UserUtils.ts:4-12 | the result is the checked stored id; a failed read yields null instead of failing |
| UserUtils.SetUserId | app/utils/UserUtils.ts:14-20 | the value is stored without any check; a failed write changes nothing |
| UserUtils.RemoveUserId | app/utils/UserUtils.ts:22-28 | the key is deleted; a failed removal changes nothing |
| Api.ServerUrl | services/api.ts:23 | the server URL is never empty: the configured one when non-empty, the default otherwise |
| Api.HostEnd | services/api.ts:25 | the greedy host run stops at the first '/' after the scheme, or at the end of the URL |
| Api.ReplaceHost | services/api.ts:25 | an unmatched URL is unchanged; a matched one is the replacement followed by what follows the longest '/'-free run after the scheme |
| Api.RewriteUrl | services/api.ts:22 | an empty URL is returned as it is |
| Api.RewriteHostUrl | services/api.ts:21-26 | `http://` + a host without '/' + a rest that is empty or starts with '/' becomes the server URL + that rest |
| Api.RewriteOtherUrl | services/api.ts:25 | a URL without the anchored `http://` + non-'/' prefix is unchanged |
| Api.RewrittenUrlShape | services/api.ts:25 | every URL the pattern matches splits as the rewrite's host and rest, and is rewritten to the server URL + rest |
| Api.UnmatchedExamples | services/api.ts:25 | `https://…`, `http:///…` and `HTTP://…` URLs are unchanged |
| Api.MatchedExample | services/api.ts:23-25 | a host with a port is replaced by the default server, keeping the path |
| Api.DefaultIsBareOrigin | services/api.ts:23 | the default server URL is `http://` and a host with no path |
| Api.RewriteIdempotent | services/api.ts:21-26 | with a bare-origin server URL, rewriting a rewritten URL changes nothing |
| Api.DefaultRewriteIdempotent | services/api.ts:23-26 | with no configured server, rewriting is idempotent |
| Api.RewriteProduct | services/api.ts:19-28 | every other product field is kept; a missing image list becomes empty; a present one keeps its length and order with each URL rewritten |
| Api.RewriteItems | services/api.ts:19-28 | the product count and order are kept, each product rewritten |
| Api.RewriteItemsKeepsInfo | services/api.ts:19-20 | no product field other than the image list changes |
| Api.RewriteItemsIdempotent | services/api.ts:17-31 | with a bare-origin server URL, running the interceptor twice equals running it once |
| Api.RewriteImageHosts | services/api.ts:17-31 | a response whose `data.items` is present (an empty list included) gets its list replaced in place by the rewritten copy; any other response is unchanged |

## Left out

- Prices, totals and order submission: the cart screen (`app/(tabs)/cart.tsx`) computes the total and posts the order, then clears the cart; that screen is outside the modelled cart store, and `price` is an opaque integer carried along, since floating-point totals are not modelled.
- JavaScript numbers are unbounded integers here: fractional quantities, `NaN` and `Infinity` in `Math.min`/`Math.max` are not modelled.
- JSON serialisation of the cart record is not modelled: the stored record is the list itself. A stored empty string (falsy, so not loaded) and an unparseable record (the load throws) cannot be represented.
- Storage calls are synchronous here. The unawaited `saveCart`/`deleteItemAsync` writes, and the order in which concurrent writes land, are not modelled.
- CartContext.CartStore: secure-storage write failures are not modelled; every cart write is taken to succeed.
- The cart line fields `averageRating`, `category`, `orderedProducts` and `feedbacks` are left out of `CartItem`; no operation reads or changes them.
- AuthContext.User: `roleName` is declared as one of three role names; the model keeps a plain string, because the stored value is cast without a check.
- AuthContext.AuthSession: `isLoading` is modelled as a field that no method may change, since the program never sets it.
- Network, logging and alerts: the HTTP client's creation, base URL and timeout, the error-logging interceptor, the success alert after logout and every console message. Server answers are the `ServerOutcome` input.
- AuthModal.AuthForm.HandleAuth: a response `user` with a missing field, which would make the storage write reject, is covered only as a rejected write (`saveFault`); the field change handlers and the rendering of the dialog are not modelled.
- Api.ReplaceHost: `$` patterns in the replacement string are read literally; a server URL containing `$` is not modelled.
- Api.RewriteImageHosts: a truthy `data.items` that is not a list (whose `.map` would throw), and `null` image entries (falsy, returned as they are) are not representable; only the empty string is a falsy URL.
- Strings are sequences of characters; UTF-16 code units and surrogate pairs in `.length` are not modelled.

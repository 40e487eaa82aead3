# APNI DUKAN storefront, modelled in Dafny

APNI DUKAN is a local-shop storefront. Customers browse shops and their products, fill a cart, and place an order.
Shopkeepers manage their products and move orders along a fixed status flow. The code has two parts:

- a React/TypeScript frontend: a cart store persisted to local storage, an auth store, a request layer with a cache,
  in-flight deduplication and a six-slot queue, form validation, and the pages that use them;
- an Express backend that keeps users, shops, products and orders in in-memory arrays.

This project models that core one module per source file. Each module states and proves what the code promises.

- Stores and pages that change state are classes. Each class method ensures its new state equals a pure
  specification function of the old state and the inputs. The lemmas are proved about those functions.
- Awaited remote calls, timers, the clock and random ids are parameters or explicit events. A begin/settle
  pair of methods stands for one `async` handler.
- The backend's routes are functions from the stored array, the caller and the request to the reply and the new
  array. A class per route file holds the array; its methods are proved to follow those functions.

Modules and their sources:

| module | source |
|---|---|
| `Common`, `Strings` | shared helpers: Option, filtering, searching, JavaScript whitespace, trim, ASCII lower case, `includes`, join and split, number printing, UTF-16 length and `parseInt` (base 16 behind `0x`, as with no radix) |
| `ApiUtils` | `APNIDUKAN/src/lib/api-utils.ts` |
| `Api` | `APNIDUKAN/src/lib/api.ts` |
| `FormEncoding` | the `URLSearchParams` serialisation `api.ts` uses for the product filters (UTF-8, `+` for a space, `%XX` for other bytes) and the server's decoding of it |
| `AuthStore` | `APNIDUKAN/src/store/authStore.ts` |
| `CartStore` | `APNIDUKAN/src/store/useStore.ts` |
| `Validation` | `APNIDUKAN/src/lib/validation.ts` |
| `MockData` | `APNIDUKAN/src/lib/mockData.ts` |
| `ClassNames` | `APNIDUKAN/src/lib/utils.ts` |
| `Toasts` | `APNIDUKAN/src/components/ui/toast.tsx` |
| `ProtectedRoute` | `APNIDUKAN/src/components/ProtectedRoute.tsx` |
| `ImagePlayer` | `APNIDUKAN/src/components/ui/image-player.tsx` |
| `SignInForm` | `APNIDUKAN/src/components/ui/sign-in-form.tsx` |
| `SignUp`, `Contact`, `CartPage`, `Checkout`, `ShopsPage`, `ShopDetail`, `ProductDetail`, `ProductManagement`, `OrderManagement` | the pages of the same names under `APNIDUKAN/src/pages/` |
| `Backend` | the caller (`req.user`) and the reply shape shared by the routes |
| `OrdersRoute`, `ProductsRoute`, `ShopsRoute` | `backend/routes/*.js` |
| `UserModel` | `backend/models/User.js` |

## Model

| member | source | states |
|---|---|---|
| ApiUtils.StoreThenLookup | APNIDUKAN/src/lib/api-utils.ts:29-45 | a `getCached` right after `setCache` returns the stored data exactly while no more than `ttl` ms have passed, and misses afterwards |
| ApiUtils.LookupFrame | APNIDUKAN/src/lib/api-utils.ts:29-40 | `getCached` hits iff the key is present and not expired, returns the stored data on a hit, deletes the entry on expiry and leaves every other key as it was |
| ApiUtils.ExpiredStaysExpired | APNIDUKAN/src/lib/api-utils.ts:34 | once `now - timestamp > ttl` holds it holds at every later time |
| ApiUtils.StoreOverwrites | APNIDUKAN/src/lib/api-utils.ts:43-45 | a second `setCache` under a key replaces the first |
| ApiUtils.ClearPatternExact | APNIDUKAN/src/lib/api-utils.ts:48-54 | with a non-empty pattern a key survives `clearCache` iff it does not contain the pattern, and survivors keep their entries |
| ApiUtils.ClearAllEmpties | APNIDUKAN/src/lib/api-utils.ts:48-57 | with no pattern or the empty one, the cache ends up empty |
| ApiUtils.ClearThenLookupMisses | APNIDUKAN/src/lib/api-utils.ts:29-58 | after clearing a pattern no key containing it is found |
| ApiUtils.SubmitRule | APNIDUKAN/src/lib/api-utils.ts:88-93 | a request starts at once iff fewer than 6 are active (the queue is then empty), otherwise it joins the back of the queue with the count unchanged |
| ApiUtils.SubmitKeepsValid | APNIDUKAN/src/lib/api-utils.ts:61-93 | submitting keeps the invariant "at most 6 active, and exactly 6 while anything waits" |
| ApiUtils.SettleRule | APNIDUKAN/src/lib/api-utils.ts:61-85 | when a task settles, the head of the queue is admitted in its slot (count unchanged), or the count drops by one when nothing waits; the invariant is kept |
| ApiUtils.StepIsFifo | APNIDUKAN/src/lib/api-utils.ts:61-93 | one request or settle event keeps the invariant, and "started so far, then waiting" grows by exactly the submitted task |
| ApiUtils.RunIsFifo | APNIDUKAN/src/lib/api-utils.ts:61-93 | over any run of events in which only running tasks settle, the tasks start in submission order: started ++ waiting == submitted, and the invariant holds throughout |
| ApiUtils.DedupJoins | APNIDUKAN/src/lib/api-utils.ts:116-127 | a second `deduplicateRequest` on a key in flight returns the first promise, runs nothing and changes nothing; the first runs iff the key was not in flight |
| ApiUtils.DedupRegisters | APNIDUKAN/src/lib/api-utils.ts:122-127 | the promise returned is the one registered under the key; other keys are untouched |
| ApiUtils.ReleaseThenDedupRuns | APNIDUKAN/src/lib/api-utils.ts:122-124 | once the key's promise settles, the next call on it starts a new request |
| ApiUtils.RequestLayer.constructor | APNIDUKAN/src/lib/api-utils.ts:1-10 | empty cache and in-flight map, zero active requests, empty queue |
| ApiUtils.RequestLayer.GetCached | APNIDUKAN/src/lib/api-utils.ts:29-40 | result and new cache are those of `Lookup`; the other three variables are unchanged |
| ApiUtils.RequestLayer.SetCache | APNIDUKAN/src/lib/api-utils.ts:43-45 | the cache becomes `Store(old cache, key, data, now, ttl)`, ttl defaulting to 30000 |
| ApiUtils.RequestLayer.ClearCache | APNIDUKAN/src/lib/api-utils.ts:48-58 | the key-by-key deletion loop leaves exactly `Clear(old cache, pattern)` |
| ApiUtils.RequestLayer.ProcessQueue | APNIDUKAN/src/lib/api-utils.ts:61-71 | count and queue move as `AdmitNext` says, and the admitted task is returned |
| ApiUtils.RequestLayer.QueueRequest | APNIDUKAN/src/lib/api-utils.ts:74-95 | count and queue move as `Submit` says and the slot invariant is kept |
| ApiUtils.RequestLayer.FinishTask | APNIDUKAN/src/lib/api-utils.ts:82-85 | count and queue move as `Settle` says, on success and failure alike, and the slot invariant is kept |
| ApiUtils.RequestLayer.DeduplicateRequest | APNIDUKAN/src/lib/api-utils.ts:112-128 | the in-flight map moves as `Dedup` says; only a new request is queued, as `Submit` says |
| ApiUtils.RequestLayer.ReleaseKey | APNIDUKAN/src/lib/api-utils.ts:122-124 | the key is removed from the in-flight map and nothing else changes |
| ApiUtils.DebounceLastWins | APNIDUKAN/src/lib/api-utils.ts:13-25 | after a burst of calls only one timer is pending, carrying the last call's arguments, due `wait` ms after that call |
| ApiUtils.DebounceDelivery | APNIDUKAN/src/lib/api-utils.ts:19-22 | a pending timer delivers its arguments once it is due, and never again after firing |
| ApiUtils.Debouncer.constructor | APNIDUKAN/src/lib/api-utils.ts:17 | no timer pending |
| ApiUtils.Debouncer.Invoke | APNIDUKAN/src/lib/api-utils.ts:18-25 | the pending timer becomes `DebounceCall(old, args, now, wait)` |
| ApiUtils.Debouncer.Advance | APNIDUKAN/src/lib/api-utils.ts:19-22 | the timer and the delivered arguments are those of `DebounceTick` |
| Api.Headers | APNIDUKAN/src/lib/api.ts:51-59 | the headers have a Content-Type (JSON unless the caller set one), keep every caller header, and have `Authorization: Bearer <token>` iff a token is stored, overriding the caller's |
| Api.BaseUrlNoEarlySlashA | APNIDUKAN/src/lib/api.ts:3 | the default base URL has no `/a` before its `/api` suffix |
| Api.BackendOriginValue | APNIDUKAN/src/lib/api.ts:85 | `API_BASE_URL.replace('/api', '')` is `http://localhost:5001` |
| Api.OriginDropsFirstApi | APNIDUKAN/src/lib/api.ts:85 | `replace('/api', '')` removes the first `/api` of any base URL and nothing else, so a base URL whose only `/api` is its suffix loses just the suffix |
| Api.Respond | APNIDUKAN/src/lib/api.ts:61-94 | an ok reply yields its data; a non-ok reply throws the body's message or `Server error: <status>`; a `TypeError` mentioning `fetch` becomes the connection help message; other errors are rethrown |
| Api.RefusalMessageNonEmpty | APNIDUKAN/src/lib/api.ts:69-72 | a non-ok reply's error message is never empty, and falls back to `Server error: <status>` |
| Api.MakeRequest | APNIDUKAN/src/lib/api.ts:45-95 | fetches `API_BASE_URL + endpoint` with the built headers, settles as `Respond`, and caches the data only for an ok keyed GET |
| Api.WritesBypass | APNIDUKAN/src/lib/api.ts:28-42 | a call with a method, or without a cache key, touches neither the cache, the in-flight map nor the queue |
| Api.FreshEntryAnswers | APNIDUKAN/src/lib/api.ts:28-33 | a fresh cache entry answers a keyed read and nothing changes |
| Api.MissJoinsOrQueues | APNIDUKAN/src/lib/api.ts:28-40 | on a miss, a keyed read joins the promise in flight under the key, or registers a new one that is queued as `Submit` says |
| Api.ReadThroughRoundTrip | APNIDUKAN/src/lib/api.ts:28-79 | a keyed read that misses, queues, and is answered makes the next read within the TTL a cache hit with the same data |
| Api.FailedReadNotCached | APNIDUKAN/src/lib/api.ts:69-79 | a refused read stores nothing and releases its key |
| Api.ApiRequest | APNIDUKAN/src/lib/api.ts:21-43 | the request layer's state moves exactly as `DispatchCall` says |
| Api.CompleteKeyedRead | APNIDUKAN/src/lib/api.ts:37-39 | the queued `makeRequest` of a keyed read settles as `CompleteRead` says: cache, key release and slot hand-over |
| Api.RoutesTable | APNIDUKAN/src/lib/api.ts:197-449 | writes never carry a cache key; the unkeyed reads are `getAll(false)`, order `getById` and `me`; product writes clear `products:`, status updates clear `orders:`, nothing else clears |
| Api.ProductKeysInFamily | APNIDUKAN/src/lib/api.ts:336-347 | every product read's cache key contains `products:` |
| Api.OrderKeysInFamily | APNIDUKAN/src/lib/api.ts:389-410 | both order list keys contain `orders:` |
| Api.InvalidationCoversFamily | APNIDUKAN/src/lib/api.ts:358-447 | after a product write no product read hits the cache, and after a status update no order list read does |
| Api.ProductsKeyIgnoresCategory | APNIDUKAN/src/lib/api.ts:336-342 | two category filters share a cache key while their endpoints differ |
| Api.ProductsEndpoint | APNIDUKAN/src/lib/api.ts:337-342 | the endpoint of a category-filtered product list is `/products?[shopId=<id>&]category=<c>`, with the id and the category form-encoded |
| Api.CategoryQuery | APNIDUKAN/src/lib/api.ts:337-340 | with a category, the query is the optional `shopId=<id>&` and then `category=<c>`, both values form-encoded |
| Api.ProductQuerySplits | APNIDUKAN/src/lib/api.ts:337-340 | the query is empty exactly when neither filter is truthy; otherwise splitting it at `&` gives back exactly the appended parameters |
| Api.ProductParamsSafe | APNIDUKAN/src/lib/api.ts:337-339 | every appended parameter is non-empty and holds no `&` |
| Api.ParamHasNoAmpersand | APNIDUKAN/src/lib/api.ts:338-339 | a serialised `name=value` holds no `&` when `name=` holds none |
| Api.CategoryWithSpaceEndpoint | APNIDUKAN/src/lib/api.ts:337-342 | a category of two unreserved words goes out with `+` for the space, as `First Aid` goes out as `First+Aid` |
| FormEncoding.Utf8 | APNIDUKAN/src/lib/api.ts:340 | the UTF-8 encoding of a character has one to four bytes; its lead byte gives the count, and the bytes decode back to the character |
| FormEncoding.Utf8StringAppend | APNIDUKAN/src/lib/api.ts:340 | the UTF-8 bytes of a concatenation are those of its parts, in order |
| FormEncoding.Utf8StringInjective | APNIDUKAN/src/lib/api.ts:340 | different strings have different UTF-8 bytes |
| FormEncoding.HexDigit | APNIDUKAN/src/lib/api.ts:340 | the upper-case hex digit written for a value reads back as that value |
| FormEncoding.EncodeBytesSafe | APNIDUKAN/src/lib/api.ts:340 | the serialiser writes only unreserved ASCII characters, `+` and `%` |
| FormEncoding.EncodeBytesAppend | APNIDUKAN/src/lib/api.ts:340 | serialising bytes distributes over concatenation |
| FormEncoding.DecodeEncodeByte | APNIDUKAN/src/lib/api.ts:340 | decoding a serialised byte followed by more text gives that byte first, then the decoding of the rest |
| FormEncoding.DecodeEncodeBytes | APNIDUKAN/src/lib/api.ts:340 | decoding the serialised bytes gives back the bytes |
| FormEncoding.FormEncodeSafe | APNIDUKAN/src/lib/api.ts:340 | a serialised text holds no `&`, `=`, `#` or space |
| FormEncoding.FormEncodeDecodes | APNIDUKAN/src/lib/api.ts:340 | the server's decoding of a serialised text gives back the text's UTF-8 bytes |
| FormEncoding.FormEncodeInjective | APNIDUKAN/src/lib/api.ts:340 | two texts serialise alike exactly when they are equal |
| FormEncoding.FormEncodeAppend | APNIDUKAN/src/lib/api.ts:340 | the serialisation of a concatenation is the concatenation of the serialisations |
| FormEncoding.FormEncodeUnreserved | APNIDUKAN/src/lib/api.ts:340 | text of ASCII letters, digits and `*-._` is sent as it stands |
| FormEncoding.FormEncodeSeparators | APNIDUKAN/src/lib/api.ts:340 | a space goes out as `+` and `&` as `%26` |
| FormEncoding.FormEncodeSpaced | APNIDUKAN/src/lib/api.ts:340 | two unreserved words with a space between them go out with `+` for the space |
| FormEncoding.FormEncodeFirstAid | APNIDUKAN/src/lib/api.ts:340 | `First Aid` goes out as `First+Aid` |
| Api.AfterWriteKeeps | APNIDUKAN/src/lib/api.ts:304-447 | a failed write clears nothing, and shop writes and order creation never clear anything |
| Api.FinishWrite | APNIDUKAN/src/lib/api.ts:358-447 | the cache becomes `AfterWrite(old cache, call, outcome)`; nothing else changes |
| Api.ShopOrdersBegin | APNIDUKAN/src/lib/api.ts:393-403 | `getByShopId` answers from `orders:shop:<id>` when that entry is fresh, and otherwise dispatches the `orders:all` read |
| Api.ShopOrdersFinish | APNIDUKAN/src/lib/api.ts:403-410 | keeps the orders of the shop and stores them under `orders:shop:<id>` for 15 s |
| Api.ShopOrdersFiltered | APNIDUKAN/src/lib/api.ts:403-410 | the result holds exactly the shop's orders, each as often as in the input, and is a hit for exactly 15 s |
| Api.SearchShopList | APNIDUKAN/src/lib/api.ts:273-302 | `search` keeps exactly the shops whose name, category, city or address contains the lowered query, all of them for an empty query |
| Api.SearchShopListInOrder | APNIDUKAN/src/lib/api.ts:273-302 | the search keeps the shops' order (it distributes over concatenation) and returns each matching shop as often as the list holds it |
| Api.SearchShortcutAgrees | APNIDUKAN/src/lib/api.ts:276 | the empty-query shortcut returns what the filter would |
| Api.AbsoluteUrlIdempotent | APNIDUKAN/src/lib/api.ts:128-129 | an absolutised URL starts with `http`, so absolutising it again changes nothing |
| Api.Upload | APNIDUKAN/src/lib/api.ts:102-194 | without a token the upload fails with `Authentication required`; an answer's URLs are absolutised one for one; a refusal fails with a non-empty message |
| AuthStore.Initial | APNIDUKAN/src/store/authStore.ts:29-33 | nobody signed in and nothing loading; the persisted token is whatever storage holds |
| AuthStore.StartLoading | APNIDUKAN/src/store/authStore.ts:36 | only `isLoading` becomes true; the session is untouched and stays coherent |
| AuthStore.SignInSettle | APNIDUKAN/src/store/authStore.ts:35-65 | a successful `login`/`register` sets user and token, authenticates and stops loading, and persists a non-empty token; a failure only stops loading |
| AuthStore.SignedOut | APNIDUKAN/src/store/authStore.ts:67-80 | `logout` clears user, token, the flag and the stored token whatever the server answered, and leaves `isLoading` as it was |
| AuthStore.CheckAuthStart | APNIDUKAN/src/store/authStore.ts:82-93 | without a stored token the session is cleared with no request; with one, loading starts and the session is kept |
| AuthStore.CheckAuthSettle | APNIDUKAN/src/store/authStore.ts:94-110 | a `getCurrentUser` success authenticates with the token read; a failure clears the session and the stored token; loading stops either way |
| AuthStore.Merge | APNIDUKAN/src/store/authStore.ts:117 | each field of the patch that is present overrides the user's, the rest are kept |
| AuthStore.Patched | APNIDUKAN/src/store/authStore.ts:113-120 | `updateUser` merges into a held user and is a no-op when no user is held |
| AuthStore.UpdateUserIdempotent | APNIDUKAN/src/store/authStore.ts:113-120 | the empty patch changes nothing and a patch applied twice is applied once |
| AuthStore.CheckAuthRestores | APNIDUKAN/src/store/authStore.ts:82-101 | a session restored by `checkAuth` carries exactly the stored token, which stays stored |
| AuthStore.FailedSignInKeepsSession | APNIDUKAN/src/store/authStore.ts:35-48 | a failed sign-in gives back the previous state with loading off |
| AuthStore.LogoutThenCheckAuth | APNIDUKAN/src/store/authStore.ts:67-91 | after `logout`, `checkAuth` cannot restore the session and makes no request |
| AuthStore.Store.constructor | APNIDUKAN/src/store/authStore.ts:29-33 | the state is `Initial(stored)` |
| AuthStore.Store.BeginSignIn | APNIDUKAN/src/store/authStore.ts:36 | the state becomes `StartLoading(old state)` |
| AuthStore.Store.SettleSignIn | APNIDUKAN/src/store/authStore.ts:37-48 | the state becomes `SignInSettle(old state, reply)` and exactly a failure is rethrown, with its message |
| AuthStore.Store.Logout | APNIDUKAN/src/store/authStore.ts:67-80 | the state becomes `SignedOut(old state)` |
| AuthStore.Store.BeginCheckAuth | APNIDUKAN/src/store/authStore.ts:82-93 | the state becomes `CheckAuthStart(old state)`; the token is returned iff it is present, to be sent with `getCurrentUser` |
| AuthStore.Store.SettleCheckAuth | APNIDUKAN/src/store/authStore.ts:94-110 | the state becomes `CheckAuthSettle(old state, token, reply)` |
| AuthStore.Store.UpdateUser | APNIDUKAN/src/store/authStore.ts:113-120 | the state becomes `Patched(old state, patch)` |
| CartStore.LoadCart | APNIDUKAN/src/store/useStore.ts:29-37 | without a window, or with nothing or garbage stored, the cart starts empty; otherwise it is the stored cart |
| CartStore.Bump | APNIDUKAN/src/store/useStore.ts:60-64 | same length; every entry for the product gains one unit and every other entry is kept |
| CartStore.AddExistingMerges | APNIDUKAN/src/store/useStore.ts:57-64 | adding a product already in the cart adds 1 to its entry, keeps that entry's id, and leaves the length and every other entry unchanged |
| CartStore.AddNewAppends | APNIDUKAN/src/store/useStore.ts:65-66 | adding a product not in the cart appends it at the end with quantity 1 |
| CartStore.AddKeepsDistinct | APNIDUKAN/src/store/useStore.ts:55-70 | with distinct products before an add they are distinct after it, and the product is then in the cart |
| CartStore.TotalAppend | APNIDUKAN/src/store/useStore.ts:91-96 | total and item count add up over concatenation |
| CartStore.BumpSums | APNIDUKAN/src/store/useStore.ts:60-64 | the merge raises the total by the product's price per entry and the count by its number of entries |
| CartStore.DistinctSums | APNIDUKAN/src/store/useStore.ts:55-70 | with distinct products a product has one entry, which carries its price |
| CartStore.MissingSums | APNIDUKAN/src/store/useStore.ts:55-70 | a product with no entry contributes nothing |
| CartStore.AddSums | APNIDUKAN/src/store/useStore.ts:55-96 | with distinct products an add raises the item count by one, and the total by the price of the entry it merged into or of the new item |
| CartStore.AddCountsOne | APNIDUKAN/src/store/useStore.ts:55-96 | with distinct products an add raises the item count by exactly one |
| CartStore.AddSumsAt | APNIDUKAN/src/store/useStore.ts:57-64 | merging into the entry `k` raises the count by one and the total by that entry's price |
| CartStore.RemoveExact | APNIDUKAN/src/store/useStore.ts:71-72 | `removeFromCart` drops exactly the entries with the id, keeps every other entry as often as it was there, and keeps their order |
| CartStore.UpdateSetsQuantity | APNIDUKAN/src/store/useStore.ts:81-83 | a positive quantity is set on the entries with the id only, and nothing is removed |
| CartStore.UpdateNonPositiveRemoves | APNIDUKAN/src/store/useStore.ts:77-80 | a quantity of at most 0 is exactly `removeFromCart` |
| CartStore.Store.constructor | APNIDUKAN/src/store/useStore.ts:54 | the cart is loaded from what storage holds |
| CartStore.Store.Save | APNIDUKAN/src/store/useStore.ts:40-47 | the cart is persisted when there is a window, and nothing happens otherwise |
| CartStore.Store.AddToCart | APNIDUKAN/src/store/useStore.ts:55-70 | the cart becomes `AfterAdd(old cart, item)` and is persisted, so a reload gives it back |
| CartStore.Store.RemoveFromCart | APNIDUKAN/src/store/useStore.ts:71-75 | the cart becomes `AfterRemove(old cart, id)` and is persisted |
| CartStore.Store.UpdateCartItemQuantity | APNIDUKAN/src/store/useStore.ts:76-86 | the cart becomes `AfterUpdate(old cart, id, quantity)` and is persisted |
| CartStore.Store.ClearCart | APNIDUKAN/src/store/useStore.ts:87-90 | the cart is empty and the empty cart is persisted |
| CartStore.Store.GetCartTotal | APNIDUKAN/src/store/useStore.ts:91-93 | the reduce computes the sum of price times quantity |
| CartStore.Store.GetCartItemCount | APNIDUKAN/src/store/useStore.ts:94-96 | the reduce computes the sum of quantities |
| Toasts.TimersFor | APNIDUKAN/src/components/ui/toast.tsx:27-32 | a new toast schedules at most one removal, exactly when its duration (3000 when absent) is positive, for its own id and with a positive delay |
| Toasts.DurationRule | APNIDUKAN/src/components/ui/toast.tsx:27-32 | no duration means removal after 3000 ms; a duration of at most 0 keeps the toast until it is closed; a positive one is the delay |
| Toasts.WithoutMeaning | APNIDUKAN/src/components/ui/toast.tsx:30-35 | the removal filter drops every toast with the id and keeps every other toast exactly as often as it was there |
| Toasts.WithoutKeepsOrder | APNIDUKAN/src/components/ui/toast.tsx:30-35 | the removal filter keeps the order of the remaining toasts |
| Toasts.WithoutAbsentAndTwice | APNIDUKAN/src/components/ui/toast.tsx:30-35 | removing an id no toast has changes nothing, and removing twice is removing once (so a timer firing after the close button does nothing more) |
| Toasts.WithoutCommutes | APNIDUKAN/src/components/ui/toast.tsx:30-35 | removals of two ids give the same list in either order, so timers firing in any order agree |
| Toasts.AddThenRemove | APNIDUKAN/src/components/ui/toast.tsx:23-36 | a toast added under an unused id and removed by it leaves the list as it was |
| Toasts.Store.constructor | APNIDUKAN/src/components/ui/toast.tsx:22 | the store starts with no toasts and no pending timers |
| Toasts.Store.AddToast | APNIDUKAN/src/components/ui/toast.tsx:23-33 | the toast is appended under its id and its removal timer is scheduled exactly as `TimersFor` says |
| Toasts.Store.RemoveToast | APNIDUKAN/src/components/ui/toast.tsx:34-36 | every toast with the id is removed and the pending timers stay |
| Toasts.Store.Fire | APNIDUKAN/src/components/ui/toast.tsx:29-31 | a firing timer removes its toast's id from the list and is itself no longer pending |
| Toasts.Store.ShowSuccess | APNIDUKAN/src/components/ui/toast.tsx:93 | `addToast` with the success type |
| Toasts.Store.ShowError | APNIDUKAN/src/components/ui/toast.tsx:94 | `addToast` with the error type |
| Toasts.Store.ShowInfo | APNIDUKAN/src/components/ui/toast.tsx:95 | `addToast` with the info type |
| Toasts.Store.ShowWarning | APNIDUKAN/src/components/ui/toast.tsx:96 | `addToast` with the warning type |
| SignInForm.InputError | APNIDUKAN/src/components/ui/sign-in-form.tsx:28-35 | no error exactly when both fields are non-empty; an empty email is reported first, an empty password only when the email is filled in |
| SignInForm.ErrorsOf | APNIDUKAN/src/components/ui/sign-in-form.tsx:26-35 | the error map holds just the one failing field, or nothing |
| SignInForm.FailureError | APNIDUKAN/src/components/ui/sign-in-form.tsx:49 | the password error is the failure's message, or "Invalid credentials" when it has none; never empty |
| SignInForm.FailureToast | APNIDUKAN/src/components/ui/sign-in-form.tsx:48 | the error toast shows the failure's message, or the fixed fallback; never empty |
| SignInForm.Form.constructor | APNIDUKAN/src/components/ui/sign-in-form.tsx:19-22 | empty fields, no errors, not loading |
| SignInForm.Form.SetEmail | APNIDUKAN/src/components/ui/sign-in-form.tsx:68 | typing sets the email and leaves the password, the errors and the loading flag alone |
| SignInForm.Form.SetPassword | APNIDUKAN/src/components/ui/sign-in-form.tsx:85 | typing sets the password and leaves the email, the errors and the loading flag alone |
| SignInForm.Form.HandleSignIn | APNIDUKAN/src/components/ui/sign-in-form.tsx:24-53 | an input error stops before `login` and changes neither the auth store nor the toasts; otherwise the auth store runs a login with the reply, a success shows "Login successful!" and leads to the dashboard, a failure shows the error toast and puts the error on the password; loading ends either way |
| SignUp.FirstError | APNIDUKAN/src/pages/sign-up.tsx:30-50 | no error exactly when name and email hold non-whitespace, the password is at least 6 UTF-16 code units long (`.length`) and equals the confirmation; each reported field implies every earlier check passed and carries its fixed message |
| SignUp.ThreeAstralPasswordAccepted | APNIDUKAN/src/pages/sign-up.tsx:43-46 | a password of three astral characters, such as three emoji, passes the six-character check |
| SignUp.BlankNameOrEmailRefused | APNIDUKAN/src/pages/sign-up.tsx:31-38 | a whitespace-only name is always the reported error, and a whitespace-only email is when the name is filled in |
| SignUp.Redirect | APNIDUKAN/src/pages/sign-up.tsx:64-70 | shopkeepers go to shop creation and customers to the shop list |
| SignUp.FailureErrors | APNIDUKAN/src/pages/sign-up.tsx:73-75 | a failure message mentioning `email` is shown on the email field, any other one on no field |
| SignUp.EmailMessageOnEmailField | APNIDUKAN/src/pages/sign-up.tsx:73-75 | every message with `email` somewhere inside it lands on the email field |
| SignUp.FailureToast | APNIDUKAN/src/pages/sign-up.tsx:72 | the error toast shows the failure's message, or the fixed fallback; never empty |
| SignUp.Page.constructor | APNIDUKAN/src/pages/sign-up.tsx:16-24 | empty fields, the customer role, no errors, not loading |
| SignUp.Page.SetFormData | APNIDUKAN/src/pages/sign-up.tsx:95-156 | an input replaces the form data and leaves the errors and the loading flag alone |
| SignUp.Page.HandleSubmit | APNIDUKAN/src/pages/sign-up.tsx:26-79 | the form data is never changed; the first failing check is the only error and nothing else changes; otherwise the auth store registers with the reply, a success shows "Account created successfully!" and redirects by role, a failure shows the error toast and fills `FailureErrors`; loading ends either way |
| SignUp.Page.Register | APNIDUKAN/src/pages/sign-up.tsx:52-78 | from a clean error map: the auth store settles the registration with the reply and loading ends; a success keeps no error, shows "Account created successfully!" and redirects by role, a failure shows the error toast and fills `FailureErrors`; the form data is unchanged |
| Contact.Valid | APNIDUKAN/src/pages/contact.tsx:12 | the form is valid exactly when name, email and message each hold a non-whitespace character; the phone plays no part |
| Contact.Page.constructor | APNIDUKAN/src/pages/contact.tsx:6-10 | empty form, not submitted |
| Contact.Page.Edit | APNIDUKAN/src/pages/contact.tsx:43-76 | the inputs hold what was typed and the submitted flag stays |
| Contact.Page.HandleSubmit | APNIDUKAN/src/pages/contact.tsx:14-23 | the page becomes submitted exactly when the form is valid (or already was) and the fields stay |
| Contact.Page.Render | APNIDUKAN/src/pages/contact.tsx:35-108 | the success view exactly when submitted; otherwise the form, with the button disabled exactly when invalid |
| ImagePlayer.Tick | APNIDUKAN/src/components/ui/image-player.tsx:27-42 | a tick keeps the index in range and completion only happens when the index stays put |
| ImagePlayer.RunInRange | APNIDUKAN/src/components/ui/image-player.tsx:19-42 | from the start, any number of ticks leaves the index naming an image |
| ImagePlayer.RunLoopingFirstPass | APNIDUKAN/src/components/ui/image-player.tsx:29-38 | with `loop`, the first pass shows the images in order and never calls `onComplete` |
| ImagePlayer.RunLoopingPeriodic | APNIDUKAN/src/components/ui/image-player.tsx:31-34 | with `loop`, the player is back at the same image and count after every `length` ticks |
| ImagePlayer.RunOnce | APNIDUKAN/src/components/ui/image-player.tsx:29-38 | without `loop`, the index climbs to the last image and stays there, and `onComplete` is called once per tick after reaching it |
| ImagePlayer.Player.constructor | APNIDUKAN/src/components/ui/image-player.tsx:14-19 | `loop` defaults to true and the index starts at 0 |
| ImagePlayer.Player.OnTick | APNIDUKAN/src/components/ui/image-player.tsx:25-42 | a tick sets the index `Tick` gives, counts a completion exactly when `Tick` reports one, and keeps the index valid |
| ImagePlayer.Player.SetImages | APNIDUKAN/src/components/ui/image-player.tsx:51-53 | new images reset the index to 0 |
| ImagePlayer.Player.Render | APNIDUKAN/src/components/ui/image-player.tsx:55-67 | the placeholder exactly when there are no images; otherwise the current image at an index in range |
| ClassNames.Kept | APNIDUKAN/src/lib/utils.ts:2-4 | the kept strings are exactly the string arguments, never more than the arguments |
| ClassNames.KeptAppend | APNIDUKAN/src/lib/utils.ts:2-4 | the kept strings keep the order of the arguments |
| ClassNames.CnFewStrings | APNIDUKAN/src/lib/utils.ts:1-6 | without string arguments `cn` gives the empty string; with one string it gives that string |
| ClassNames.CnIgnoresNonStrings | APNIDUKAN/src/lib/utils.ts:4 | inserting `undefined`, `null`, `false` or a record anywhere does not change the result |
| ClassNames.CnKeepsEmptyStrings | APNIDUKAN/src/lib/utils.ts:4-5 | empty strings are kept and show as adjacent spaces |
| ClassNames.CnParts | APNIDUKAN/src/lib/utils.ts:1-6 | when no class holds a space, splitting the result on spaces gives back the string arguments in order |
| CartPage.GroupsOfKeys | APNIDUKAN/src/pages/cart.tsx:74-83 | the grouping has a card for a shop exactly when some cart entry is from that shop |
| CartPage.GroupsOfItems | APNIDUKAN/src/pages/cart.tsx:74-83 | each card holds exactly its shop's entries, in cart order |
| CartPage.GroupsOfNames | APNIDUKAN/src/pages/cart.tsx:75-80 | each card is titled with the shop name of the first entry of its shop |
| CartPage.EveryItemInItsGroup | APNIDUKAN/src/pages/cart.tsx:74-83 | every entry shows up in the card of its own shop and in no other card |
| CartPage.GroupByShop | APNIDUKAN/src/pages/cart.tsx:74-83 | the `reduce` loop builds exactly `GroupsOf(cart)` |
| CartPage.MinusAtOneRemoves | APNIDUKAN/src/pages/cart.tsx:127 | the minus button at quantity 1 asks for 0, which removes the entry |
| CartPage.PlusThenMinusRestores | APNIDUKAN/src/pages/cart.tsx:127-141 | plus followed by minus gives back the cart |
| CartPage.Page.constructor | APNIDUKAN/src/pages/cart.tsx:12-19 | the page works on the given cart store |
| CartPage.Page.Minus | APNIDUKAN/src/pages/cart.tsx:41-44 | the minus button asks the store for `quantity - 1`, and the cart is persisted |
| CartPage.Page.Plus | APNIDUKAN/src/pages/cart.tsx:41-44 | the plus button asks the store for `quantity + 1`, and the cart is persisted |
| CartPage.Page.Trash | APNIDUKAN/src/pages/cart.tsx:26-29 | the trash button removes the entry by id, and the cart is persisted |
| Checkout.ErrorMap | APNIDUKAN/src/pages/checkout.tsx:49-52 | the error map has a key exactly for each field with an error |
| Checkout.ErrorMapLastWins | APNIDUKAN/src/pages/checkout.tsx:50-52 | a field's message is that of its last error in the list |
| Checkout.LineOf | APNIDUKAN/src/pages/checkout.tsx:68-73 | a request line copies the entry's product id, name, quantity and price |
| Checkout.Lines | APNIDUKAN/src/pages/checkout.tsx:68-73 | one request line per cart entry, in cart order |
| Checkout.BuildRequest | APNIDUKAN/src/pages/checkout.tsx:62-83 | an empty cart gives the `Cart is empty` error; otherwise the request carries the cart's lines, the first entry's shop, and the form's customer fields and payment method |
| Checkout.LinesTotalIsCartTotal | APNIDUKAN/src/pages/checkout.tsx:68-73 | the total the server computes from the request lines equals the cart total the page shows |
| Checkout.PlacedOrderTotalMatchesCart | APNIDUKAN/src/pages/checkout.tsx:67-85 | an order the server accepts from a non-empty cart stores the cart's lines and the cart's total |
| Checkout.FailureMessage | APNIDUKAN/src/pages/checkout.tsx:91 | the failure toast shows the error's message, or the fixed fallback for an empty one |
| Checkout.ScreenFor | APNIDUKAN/src/pages/checkout.tsx:97-108 | the confirmation exactly when an order was placed; the empty-cart notice exactly when the cart is empty and none was |
| Checkout.Page.constructor | APNIDUKAN/src/pages/checkout.tsx:18-21 | no order placed, not placing, no errors |
| Checkout.Page.Submit | APNIDUKAN/src/pages/checkout.tsx:48-95 | validation errors become the error map and nothing is sent; an empty cart fails with `Cart is empty`; otherwise the built request is sent, and only an accepted order marks the page placed and clears and persists the cart |
| Checkout.Page.HandleSubmit | APNIDUKAN/src/pages/checkout.tsx:35-95 | the errors are those of `validateCheckoutForm` on the form, followed by `Submit` |
| OrdersRoute.ListOrders | backend/routes/orders.js:13-25 | a shopkeeper is listed exactly the orders of their shop, anyone else exactly the orders they placed |
| OrdersRoute.ListOrdersInOrder | backend/routes/orders.js:16-22 | the listing keeps the stored order of the orders |
| OrdersRoute.GetOrder | backend/routes/orders.js:30-47 | 404 exactly when no order has the id; a served order has the id and may be read by the caller; no other code |
| OrdersRoute.GetOrderAuthorised | backend/routes/orders.js:31-46 | the first order with the id is served exactly when the caller may read it, and refused with 403 exactly when not |
| OrdersRoute.LinesTotalAppend | backend/routes/orders.js:79-81 | the order total adds up over consecutive stretches of lines |
| OrdersRoute.PaymentOrDefault | backend/routes/orders.js:97 | a missing or empty payment method becomes `cod`, any other one is kept |
| OrdersRoute.CreateOrder | backend/routes/orders.js:52-109 | an invalid body gets 400 and a non-customer 403, both leaving the orders unchanged; otherwise the new order is returned with 201 and appended |
| OrdersRoute.CreateOrderAppends | backend/routes/orders.js:66-103 | 201 exactly for a valid body from a customer; only then is one order appended, holding the request's lines, their total, status `pending`, the caller as customer and the defaulted payment method |
| OrdersRoute.UpdateStatus | backend/routes/orders.js:114-153 | the status check, then the role, then the lookup are applied in that order with their codes and messages, and every refusal leaves the orders unchanged |
| OrdersRoute.UpdateStatusAnyTransition | backend/routes/orders.js:137-147 | a shopkeeper of the order's shop may set any accepted status from any status: only that order changes, taking the status and the new stamp |
| OrdersRoute.UpdateStatusForeignShop | backend/routes/orders.js:139-142 | a shopkeeper of another shop gets 403 and the orders stay as they were |
| OrdersRoute.OrderBook.constructor | backend/routes/orders.js:8 | the order array starts empty |
| OrdersRoute.OrderBook.List | backend/routes/orders.js:13-25 | the route's reply is `ListOrders` of the stored orders |
| OrdersRoute.OrderBook.Get | backend/routes/orders.js:30-47 | the route's reply is `GetOrder` of the stored orders |
| OrdersRoute.OrderBook.Create | backend/routes/orders.js:52-109 | the reply and the new orders are those of `CreateOrder` |
| OrdersRoute.OrderBook.SetStatus | backend/routes/orders.js:114-153 | the reply and the new orders are those of `UpdateStatus` |
| OrderManagement.NextStatus | APNIDUKAN/src/pages/order-management.tsx:88-92 | no next status exactly for `delivered` and `cancelled`; otherwise the next one is the following status on the flow |
| OrderManagement.NextStatusTable | APNIDUKAN/src/pages/order-management.tsx:22-92 | pending, confirmed, preparing and ready lead to confirmed, preparing, ready and delivered |
| OrderManagement.StatusesMatchServer | APNIDUKAN/src/pages/order-management.tsx:13-20 | the page's statuses are exactly the names the server's status check accepts |
| OrderManagement.ActionsFor | APNIDUKAN/src/pages/order-management.tsx:224-240 | the advance button shows exactly off the end of the flow and leads to the next status; the cancel button shows exactly for pending orders |
| OrderManagement.ButtonsMoveForward | APNIDUKAN/src/pages/order-management.tsx:224-240 | the buttons never leave a delivered or cancelled order, never go back to pending, cancel only pending orders, and otherwise move one step along the flow |
| OrderManagement.FilteredOrders | APNIDUKAN/src/pages/order-management.tsx:62-65 | `all` shows every order, any other choice exactly the orders with that status |
| OrderManagement.FilteredOrdersInOrder | APNIDUKAN/src/pages/order-management.tsx:62-65 | the filter keeps the list's order (it distributes over concatenation) and shows each kept order as often as the list holds it |
| OrderManagement.StatusCount | APNIDUKAN/src/pages/order-management.tsx:128 | a button's count never exceeds the number of orders |
| OrderManagement.StatusCountIsFiltered | APNIDUKAN/src/pages/order-management.tsx:128 | a status button's count is the length of the list its filter shows |
| OrderManagement.StatusCountsAddUp | APNIDUKAN/src/pages/order-management.tsx:123-136 | the six status counts add up to the count on the `All` button |
| OrderManagement.Optimistic | APNIDUKAN/src/pages/order-management.tsx:70-76 | the optimistic list has the same length; the orders with the id take the new status and stamp, the others are unchanged |
| OrderManagement.OptimisticRefilters | APNIDUKAN/src/pages/order-management.tsx:62-76 | after the optimistic change the order is listed under its new status and the other orders are untouched |
| OrderManagement.Board.constructor | APNIDUKAN/src/pages/order-management.tsx:30-42 | the board holds the loaded orders |
| OrderManagement.Board.BeginUpdate | APNIDUKAN/src/pages/order-management.tsx:67-76 | the snapshot is the list before the change and the list becomes the optimistic one |
| OrderManagement.Board.SettleUpdate | APNIDUKAN/src/pages/order-management.tsx:78-85 | a success keeps the optimistic list, a refusal restores the snapshot exactly |
| Validation.EmailShapedMeansPattern | APNIDUKAN/src/lib/validation.ts:8 | the computed email test accepts exactly the strings matching `^[^\s@]+@[^\s@]+\.[^\s@]+$` |
| Validation.ValidateEmail | APNIDUKAN/src/lib/validation.ts:6-11 | an empty email is "required"; any other rejection is the invalid-address message |
| Validation.ValidateEmailMeaning | APNIDUKAN/src/lib/validation.ts:6-11 | `validateEmail` accepts exactly the strings the pattern matches |
| Validation.DigitCount | APNIDUKAN/src/lib/validation.ts:17 | the digit count never exceeds the length |
| Validation.ValidatePhone | APNIDUKAN/src/lib/validation.ts:13-19 | a phone passes exactly when it is non-empty, made only of digits, spaces, `+`, `-` and parentheses, and holds at least ten digits; empty and bad-character inputs get their own messages |
| Validation.ShortPhoneRejected | APNIDUKAN/src/lib/validation.ts:17 | a phone of fewer than ten characters is always rejected |
| Validation.ValidateRequiredMeaning | APNIDUKAN/src/lib/validation.ts:21-26 | a value is rejected exactly when it is empty or white space only, with the message `<field> is required` |
| Validation.ValidateMinLength | APNIDUKAN/src/lib/validation.ts:28-33 | an error exactly when the value's UTF-16 length (`.length`) is below the minimum, and it names the field |
| Validation.ValidateMaxLength | APNIDUKAN/src/lib/validation.ts:35-40 | an error exactly when the value's UTF-16 length is above the maximum, and it names the field |
| Validation.LengthChecksCountCodeUnits | APNIDUKAN/src/lib/validation.ts:28-40 | on text without astral characters both checks count characters; three emoji already exceed a maximum of five |
| Strings.Utf16Length | APNIDUKAN/src/lib/validation.ts:29 | `.length` lies between the number of characters and twice that |
| Strings.Utf16LengthIsSize | APNIDUKAN/src/lib/validation.ts:29 | `.length` equals the number of characters exactly when none is astral |
| Strings.Utf16LengthAppend | APNIDUKAN/src/lib/validation.ts:29 | `.length` of a concatenation is the sum of the lengths |
| Strings.Utf16LengthThreeAstral | APNIDUKAN/src/lib/validation.ts:29 | three astral characters are six code units long |
| Validation.ValidatePrice | APNIDUKAN/src/lib/validation.ts:42-48 | a price passes exactly when it is a number greater than 0 |
| Validation.SanitizeInput | APNIDUKAN/src/lib/validation.ts:50-52 | the result is no longer than the input, has no `<` or `>`, and holds exactly the other characters of the trimmed input |
| Validation.SanitizeKeepsClean | APNIDUKAN/src/lib/validation.ts:50-52 | a string without brackets or surrounding white space is left as it is |
| Validation.SanitizeAfterTrim | APNIDUKAN/src/lib/validation.ts:51 | brackets are deleted after trimming, so the result can start with white space |
| Validation.ErrorOf | APNIDUKAN/src/lib/validation.ts:64-65 | a check adds one error exactly when it fails |
| Validation.Collect | APNIDUKAN/src/lib/validation.ts:62-82 | never more errors than checks |
| Validation.CollectSnoc | APNIDUKAN/src/lib/validation.ts:64-80 | one check more adds its error, if any, at the end |
| Validation.CollectMeaning | APNIDUKAN/src/lib/validation.ts:62-82 | no error exactly when every check passes, and each error comes from a failing check on its field with its message |
| Validation.CollectOrder | APNIDUKAN/src/lib/validation.ts:62-82 | errors appear in the order the checks run |
| Validation.Report | APNIDUKAN/src/lib/validation.ts:65 | the push appends a failing check's error and nothing otherwise |
| Validation.ValidateShopForm | APNIDUKAN/src/lib/validation.ts:54-83 | the method returns the errors of the six shop checks, in field order |
| Validation.ShopFormMeaning | APNIDUKAN/src/lib/validation.ts:54-83 | a shop form has no error exactly when the five text fields are filled and the phone is valid |
| Validation.ValidateProductForm | APNIDUKAN/src/lib/validation.ts:85-106 | the method returns the errors of the four product checks, in field order |
| Validation.ProductFormMeaning | APNIDUKAN/src/lib/validation.ts:85-106 | a product form has no error exactly when name, description and category are filled and the price is positive |
| Validation.PincodeError | APNIDUKAN/src/lib/validation.ts:133-137 | "required" exactly for a blank pincode, "6 digits" exactly for a filled one that is not six digits, none exactly for six digits |
| Validation.ValidateCheckoutForm | APNIDUKAN/src/lib/validation.ts:108-140 | the method returns the errors of the six checkout checks, in field order |
| Validation.CheckoutFormMeaning | APNIDUKAN/src/lib/validation.ts:108-140 | a checkout form has no error exactly when every field passes, the email matching its pattern and the pincode being six digits |
| ProductsRoute.ListProducts | backend/routes/products.js:13-25 | a product is listed exactly when it matches the shop filter and the category filter, each applied only when its parameter is truthy |
| ProductsRoute.ListProductsInOrder | backend/routes/products.js:14-22 | the listing keeps the stored order |
| ProductsRoute.ListProductsUnfiltered | backend/routes/products.js:14-22 | with no or empty parameters every product is listed, in stored order |
| ProductsRoute.GetProduct | backend/routes/products.js:30-36 | 404 exactly when no product has the id; otherwise 200 with a stored product of that id |
| ProductsRoute.ParseStock | backend/routes/products.js:71-72 | a number sent as stock parses to itself; text goes through `parseInt` without a radix |
| Strings.ParseIntNatToString | backend/routes/products.js:71-72 | `parseInt` reads back the decimal text of every natural number, and stops at a following non-digit (an `x` after a lone `0` would switch to base 16 instead) |
| Strings.ParseSignedHex | backend/routes/products.js:71-72 | after the white space, an optional sign and `0x` or `0X`, the hex digits are read in base 16, negated behind `-`; with no digit the result is `NaN` |
| Strings.ParseIntHex | backend/routes/products.js:71-72 | `parseInt` without a radix reads `0x`/`0X` text, behind an optional sign, in base 16, and the prefix alone is `NaN` |
| Strings.ParseIntHexTwoDigits | backend/routes/products.js:71-72 | `0x` or `0X` and two hex digits read as sixteen times the first digit's value plus the second's |
| ProductsRoute.StockFrom | backend/routes/products.js:72 | the stored stock is `NaN` exactly when `parseInt` fails, and otherwise the parsed count |
| ProductsRoute.NewProduct | backend/routes/products.js:63-75 | the stored product has the id, price and stamps; the default image when none is sent; in stock with a `null` count when the stock is falsy, and otherwise in stock exactly when the parsed count is positive |
| ProductsRoute.HexTextStockIsBase16 | backend/routes/products.js:71-72 | `parseInt` is called without a radix, so a stock sent as text `0x` or `0X` followed by hex digits is stored as their base-16 value, in stock exactly when that value is positive |
| ProductsRoute.HexTextStockExample | backend/routes/products.js:71-72 | the text `"0x10"` is stored as a count of 16, in stock |
| ProductsRoute.ZeroTextStockIsOutOfStock | backend/routes/products.js:71-72 | the text `"0"` is truthy, so the product is stored out of stock with a count of 0 |
| ProductsRoute.CreateProduct | backend/routes/products.js:41-84 | an invalid body gets 400, a non-shopkeeper 403, both storing nothing; otherwise the new product is returned with 201 and appended |
| ProductsRoute.CreateProductOutcome | backend/routes/products.js:52-78 | 201 exactly for a valid body from a shopkeeper, 400 exactly for an invalid body whoever sends it, and only 201 stores |
| ProductsRoute.CreateProductAppends | backend/routes/products.js:77-78 | a created product goes after the stored ones and is the one the reply carries |
| ProductsRoute.Merged | backend/routes/products.js:117-124 | the patch's fields overwrite the stored ones, the stamp is renewed, and a sent stock sets the count and the in-stock flag from `parseInt` |
| ProductsRoute.EmptyPatchStamps | backend/routes/products.js:117-119 | an empty patch only renews the stamp |
| ProductsRoute.UpdateProduct | backend/routes/products.js:89-132 | an invalid patch gets 400 and an unknown id 404, and no refusal changes the products |
| ProductsRoute.UpdateProductAt | backend/routes/products.js:103-126 | for a stored id a shopkeeper's patch merges into the first product with it and changes no other; anyone else gets 403 and nothing changes |
| ProductsRoute.DeleteProduct | backend/routes/products.js:137-155 | 404 exactly for an unknown id, 200 exactly for a shopkeeper and a stored id, and no refusal changes the products |
| ProductsRoute.DeleteProductRemovesOne | backend/routes/products.js:139-149 | a delete removes exactly the first product with the id and keeps the others in order |
| ProductsRoute.Catalog.constructor | backend/routes/products.js:8 | the product array starts empty |
| ProductsRoute.Catalog.List | backend/routes/products.js:13-25 | the reply is `ListProducts` of the stored products |
| ProductsRoute.Catalog.Get | backend/routes/products.js:30-36 | the reply is `GetProduct` of the stored products |
| ProductsRoute.Catalog.Create | backend/routes/products.js:41-84 | the reply and the new products are those of `CreateProduct` |
| ProductsRoute.Catalog.Update | backend/routes/products.js:89-132 | the reply and the new products are those of `UpdateProduct` |
| ProductsRoute.Catalog.Delete | backend/routes/products.js:137-155 | the reply and the new products are those of `DeleteProduct` |
| ShopsRoute.GetShop | backend/routes/shops.js:20-26 | 404 exactly when no shop has the id; otherwise 200 with a stored shop of that id |
| ShopsRoute.NewShop | backend/routes/shops.js:53-70 | the stored shop is owned by the caller, takes the default timings, empty description and `null` logo when those are falsy, and starts unrated, unreviewed and unverified |
| ShopsRoute.CreateShop | backend/routes/shops.js:31-79 | an invalid body gets 400, a non-shopkeeper 403, both storing nothing; otherwise the new shop is returned with 201 and appended |
| ShopsRoute.CreateShopOutcome | backend/routes/shops.js:42-73 | 201 exactly for a valid body from a shopkeeper, 400 exactly for an invalid body, and only 201 stores |
| ShopsRoute.CreateShopAppends | backend/routes/shops.js:72-73 | a created shop goes after the stored ones, is the one the reply carries and is owned by the caller |
| ShopsRoute.Or | backend/routes/shops.js:111 | a supplied field wins over the stored one |
| ShopsRoute.Merged | backend/routes/shops.js:111-113 | the patch's fields overwrite the stored ones, the creation stamp stays and the update stamp is renewed |
| ShopsRoute.UpdateShop | backend/routes/shops.js:84-121 | an invalid patch gets 400 and an unknown id 404, and no refusal changes the shops |
| ShopsRoute.UpdateShopAt | backend/routes/shops.js:98-115 | the owner or an admin merges the patch into the first shop with the id and changes no other; anyone else gets 403 and nothing changes |
| ShopsRoute.OwnerMayVerifyAndTransfer | backend/routes/shops.js:106-113 | the owner can mark their own shop verified and hand it to someone else, after which they no longer manage it |
| ShopsRoute.DeleteShop | backend/routes/shops.js:126-146 | 404 exactly for an unknown id, only 200, 403 or 404, and no refusal changes the shops |
| ShopsRoute.DeleteShopAt | backend/routes/shops.js:128-141 | the owner or an admin removes exactly that shop and keeps the others in order; anyone else gets 403 |
| ShopsRoute.Registry.constructor | backend/routes/shops.js:8 | the shop array starts empty |
| ShopsRoute.Registry.List | backend/routes/shops.js:13-15 | `GET /` answers with every stored shop |
| ShopsRoute.Registry.Get | backend/routes/shops.js:20-26 | the reply is `GetShop` of the stored shops |
| ShopsRoute.Registry.Create | backend/routes/shops.js:31-79 | the reply and the new shops are those of `CreateShop` |
| ShopsRoute.Registry.Update | backend/routes/shops.js:84-121 | the reply and the new shops are those of `UpdateShop` |
| ShopsRoute.Registry.Delete | backend/routes/shops.js:126-146 | the reply and the new shops are those of `DeleteShop` |
| UserModel.NewUser | backend/models/User.js:7-16 | the new user holds the given fields, role `customer` and shop id `null` unless given, and the creation stamps |
| UserModel.FindByEmail | backend/models/User.js:18-20 | `null` exactly when no user has the email; otherwise the first user with it |
| UserModel.FindById | backend/models/User.js:22-24 | `null` exactly when no user has the id; otherwise the first user with it |
| UserModel.FindFirstSnoc | backend/models/User.js:18-28 | an append never changes which user a search finds first, and an unmatched search finds the appended one when it matches |
| UserModel.CreateKeepsFirstEmail | backend/models/User.js:18-30 | creating a user with an email already taken leaves `findByEmail` finding the earlier user; otherwise it finds the new one |
| UserModel.Merged | backend/models/User.js:35-36 | the updates overwrite their fields, the id and creation stamp stay and the update stamp is renewed |
| UserModel.Update | backend/models/User.js:32-40 | `null` exactly for an unknown id, with the users unchanged; the array never changes length |
| UserModel.UpdateAt | backend/models/User.js:33-37 | an update merges into the first user with the id and changes no other user |
| UserModel.Delete | backend/models/User.js:42-49 | `true` exactly when some user has the id, and then one user fewer; `false` leaves the users unchanged |
| UserModel.DeleteAt | backend/models/User.js:43-46 | a delete removes exactly the first user with the id and keeps the others in order |
| UserModel.ToJson | backend/models/User.js:52-55 | the JSON carries every field but the password |
| UserModel.ToJsonHidesPassword | backend/models/User.js:52-55 | two users have the same JSON exactly when they differ at most in the password |
| UserModel.Users.constructor | backend/models/User.js:4 | the user array starts empty |
| UserModel.Users.FindUserByEmail | backend/models/User.js:18-20 | the answer is `FindByEmail` of the stored users |
| UserModel.Users.FindUserById | backend/models/User.js:22-24 | the answer is `FindById` of the stored users |
| UserModel.Users.Create | backend/models/User.js:26-30 | the new user is `NewUser` of the data and is appended |
| UserModel.Users.UpdateUser | backend/models/User.js:32-40 | the answer and the new users are those of `Update` |
| UserModel.Users.DeleteUser | backend/models/User.js:42-49 | the answer and the new users are those of `Delete` |
| ProtectedRoute.Decide | APNIDUKAN/src/components/ProtectedRoute.tsx:19-43 | the spinner exactly while loading, with no redirect; the children exactly for an authenticated user with the required role, if any; otherwise nothing, redirecting to `/sign-in` exactly when unauthenticated and to `/` exactly on a role mismatch |
| ProtectedRoute.NoSessionRedirects | APNIDUKAN/src/components/ProtectedRoute.tsx:15-36 | with no stored token, or after the token check fails, the guard sends the visitor to `/sign-in` and renders nothing |
| ProtectedRoute.CheckingShowsSpinner | APNIDUKAN/src/components/ProtectedRoute.tsx:27-33 | while a stored token is being checked the guard shows the spinner, whatever the role |
| ProtectedRoute.RestoredSessionShows | APNIDUKAN/src/components/ProtectedRoute.tsx:35-43 | a restored session shows a route without a role, and a route with a role exactly to users of that role |
| MockData.StatusNamesDistinct | APNIDUKAN/src/lib/mockData.ts:376 | distinct order states have distinct names |
| MockData.ShopById | APNIDUKAN/src/lib/mockData.ts:325-327 | `undefined` exactly when no shop has the id; otherwise the first shop with it |
| MockData.ProductById | APNIDUKAN/src/lib/mockData.ts:333-335 | `undefined` exactly when no product has the id; otherwise the first product with it |
| MockData.ProductsOfShop | APNIDUKAN/src/lib/mockData.ts:329-331 | exactly the products of the shop |
| MockData.ProductsOfShopInOrder | APNIDUKAN/src/lib/mockData.ts:329-331 | the products of a shop keep their listed order and multiplicity |
| MockData.OrdersOfShop | APNIDUKAN/src/lib/mockData.ts:425-427 | exactly the orders of the shop |
| MockData.OrdersOfShopInOrder | APNIDUKAN/src/lib/mockData.ts:425-427 | the orders of a shop keep their listed order and multiplicity |
| MockData.OrderById | APNIDUKAN/src/lib/mockData.ts:429-431 | `undefined` exactly when no order has the id; otherwise the first order with it |
| MockData.SearchShops | APNIDUKAN/src/lib/mockData.ts:337-346 | exactly the shops whose name, category, city or description contains the lowercased query, lowercased |
| MockData.SearchShopsIgnoresAddress | APNIDUKAN/src/lib/mockData.ts:339-345 | the address plays no part in the shop search |
| MockData.SearchShopsEmptyQuery | APNIDUKAN/src/lib/mockData.ts:337-346 | the empty query gives back every shop |
| MockData.SearchProducts | APNIDUKAN/src/lib/mockData.ts:348-356 | exactly the products whose name, description or category contains the lowercased query, lowercased |
| MockData.SearchProductsCaseInsensitive | APNIDUKAN/src/lib/mockData.ts:348-356 | queries that lowercase alike give the same products |
| MockData.SampleTotalsConsistent | APNIDUKAN/src/lib/mockData.ts:383-423 | each sample order's total is the sum of price times quantity of its items |
| MockData.SampleOrderLookups | APNIDUKAN/src/lib/mockData.ts:383-431 | the lookups over the sample orders find `o1` for shop `1`, `o2` by id, and nothing for `o3` |
| ProductDetail.Decrement | APNIDUKAN/src/pages/product-detail.tsx:228 | the minus button never takes the quantity below 1, and otherwise lowers it by one |
| ProductDetail.Increment | APNIDUKAN/src/pages/product-detail.tsx:236 | the plus button always raises the quantity |
| ProductDetail.QuantityStaysPositive | APNIDUKAN/src/pages/product-detail.tsx:228-236 | from the initial 1, any sequence of presses leaves the quantity between 1 and one more than the number of presses |
| ProductDetail.MinusUndoesPlus | APNIDUKAN/src/pages/product-detail.tsx:228-236 | minus after plus gives back any quantity of at least 1 |
| ProductDetail.ItemFor | APNIDUKAN/src/pages/product-detail.tsx:111-119 | the `i`-th added item carries the product's and the shop's fields and the id `${product.id}-${now}-${i}` |
| ProductDetail.BumpByZero | APNIDUKAN/src/pages/product-detail.tsx:110 | raising by nothing leaves the cart as it is |
| ProductDetail.BumpByStep | APNIDUKAN/src/pages/product-detail.tsx:110-120 | one more add of a product already in the cart raises its entries by one more unit |
| ProductDetail.BumpAppended | APNIDUKAN/src/pages/product-detail.tsx:110-120 | after the first add appends the product, the next add raises that last entry and keeps the others |
| ProductDetail.CopiedStep | APNIDUKAN/src/pages/product-detail.tsx:110-120 | each pass of the loop takes the cart one unit further along the closed form |
| ProductDetail.CountUpdate | APNIDUKAN/src/pages/product-detail.tsx:110-120 | raising one entry's quantity by `d` raises the item count by `d` |
| ProductDetail.BumpByOne | APNIDUKAN/src/pages/product-detail.tsx:110-120 | with one entry per product, raising a product raises just its one entry |
| ProductDetail.CopiedDistinct | APNIDUKAN/src/pages/product-detail.tsx:110-120 | with one entry per product before the loop, there is one entry per product after it |
| ProductDetail.CopiedExisting | APNIDUKAN/src/pages/product-detail.tsx:110-120 | for a product already in the cart, the loop raises its one entry by the selected quantity and changes nothing else |
| ProductDetail.CopiedCount | APNIDUKAN/src/pages/product-detail.tsx:110-120 | the loop adds exactly the selected number of units to the cart's item count |
| ProductDetail.Page.constructor | APNIDUKAN/src/pages/product-detail.tsx:19-23 | the quantity starts at 1 and nothing is being added |
| ProductDetail.Page.Minus | APNIDUKAN/src/pages/product-detail.tsx:228 | the quantity becomes `Decrement` of the old one |
| ProductDetail.Page.Plus | APNIDUKAN/src/pages/product-detail.tsx:236 | the quantity becomes `Increment` of the old one |
| ProductDetail.Page.HandleAddToCart | APNIDUKAN/src/pages/product-detail.tsx:104-132 | with no product or shop nothing changes; otherwise the loop of `quantity` adds leaves the cart equal to `Copied` of the old cart, persisted, and the adding flag is cleared |
| ShopDetail.CategoriesOf | APNIDUKAN/src/pages/shop-detail.tsx:63 | one category per product, in product order |
| ShopDetail.Categories | APNIDUKAN/src/pages/shop-detail.tsx:63 | `all` first, then every product category exactly once and no other |
| ShopDetail.CategoriesInOrder | APNIDUKAN/src/pages/shop-detail.tsx:63 | the category buttons come in the order in which the products first show each category |
| ShopDetail.FilteredProducts | APNIDUKAN/src/pages/shop-detail.tsx:65-68 | `all` shows every product, any other choice exactly the products of that category |
| ShopDetail.FilteredProductsInOrder | APNIDUKAN/src/pages/shop-detail.tsx:65-68 | the filter keeps the products' order (it distributes over concatenation) and shows each kept product as often as the list holds it |
| ShopDetail.CategoryButtonsNonEmpty | APNIDUKAN/src/pages/shop-detail.tsx:63-68 | no category button leads to an empty list |
| ShopDetail.ProductUnderItsCategory | APNIDUKAN/src/pages/shop-detail.tsx:63-68 | every product is shown under `all` and under its own category's button, and under no other |
| ShopDetail.AddDisabledRule | APNIDUKAN/src/pages/shop-detail.tsx:258 | with nothing being added the button is enabled exactly in stock; the product being added has its button disabled; any other product only when out of stock |
| ShopDetail.ItemFor | APNIDUKAN/src/pages/shop-detail.tsx:102-110 | the added item carries the product's and the shop's fields and the id `${product.id}-${now}` |
| ShopDetail.Page.constructor | APNIDUKAN/src/pages/shop-detail.tsx:19-23 | the `all` category is selected and nothing is being added |
| ShopDetail.Page.SelectCategory | APNIDUKAN/src/pages/shop-detail.tsx:206 | the selected category changes and the shown list is `FilteredProducts` of it |
| ShopDetail.Page.BeginAdd | APNIDUKAN/src/pages/shop-detail.tsx:99-110 | the product is marked as being added and the cart becomes `AfterAdd` of the item, persisted |
| ShopDetail.Page.SettleAdd | APNIDUKAN/src/pages/shop-detail.tsx:118-119 | the adding mark is cleared |
| ShopsPage.CitiesOf | APNIDUKAN/src/pages/shops.tsx:54 | one city per shop, in shop order |
| ShopsPage.Cities | APNIDUKAN/src/pages/shops.tsx:54 | `all` first, then every shop city exactly once and no other |
| ShopsPage.CitiesInOrder | APNIDUKAN/src/pages/shops.tsx:54 | the city choices come in the order in which the shops first show each city |
| ShopsPage.WithDistance | APNIDUKAN/src/pages/shops.tsx:113-124 | a shop with truthy coordinates gets the computed distance and keeps every other field; any other shop is unchanged |
| ShopsPage.Located | APNIDUKAN/src/pages/shops.tsx:113-124 | the `map` step applies `WithDistance` to every shop, in order |
| ShopsPage.Insert | APNIDUKAN/src/pages/shops.tsx:133-137 | an insertion step keeps every shop and adds the new one |
| ShopsPage.InsertByDistance | APNIDUKAN/src/pages/shops.tsx:133-137 | inserting into a nearest-first list keeps it nearest first |
| ShopsPage.SortByDistance | APNIDUKAN/src/pages/shops.tsx:133-137 | the sort returns the same shops, as a permutation, nearest first (a missing distance counting as infinite) |
| ShopsPage.FilterByDistance | APNIDUKAN/src/pages/shops.tsx:140-160 | filtering a nearest-first list keeps it nearest first |
| ShopsPage.NearestFirst | APNIDUKAN/src/pages/shops.tsx:112-138 | the location step lists exactly the located shops within the radius, nearest first, and never more shops than it was given |
| ShopsPage.SearchIgnoresQueryCase | APNIDUKAN/src/pages/shops.tsx:141-149 | the search does not depend on the letter case of the query |
| ShopsPage.CalculateAndFilter | APNIDUKAN/src/pages/shops.tsx:94-165 | nothing while loading or without shops; without the location filter exactly the shops that pass the search, category and city filters, in order; with it exactly the located shops within the radius that pass them, nearest first |
| ShopsPage.GuardedFilter | APNIDUKAN/src/pages/shops.tsx:141-160 | a filter applied only under a condition is one filter by "condition fails or the test holds" |
| ShopsPage.SelectedInSteps | APNIDUKAN/src/pages/shops.tsx:141-160 | the three filters applied one after another keep exactly the selected shops, in order |
| ProductManagement.ShopIdOf | APNIDUKAN/src/pages/product-management.tsx:29 | the stored profile's id, or `1` when there is none or it is empty |
| ProductManagement.StockOf | APNIDUKAN/src/pages/product-management.tsx:167 | a blank stock field sends `undefined`, a field that `parseInt` (no radix: base 16 behind `0x`, else base 10) reads sends that number, and any other sends `NaN` |
| ProductManagement.TypedImage | APNIDUKAN/src/pages/product-management.tsx:141 | the typed image URL, or the default image for an empty one |
| ProductManagement.BuildDraft | APNIDUKAN/src/pages/product-management.tsx:159-169 | the edited product's id, if it has one, otherwise `p` and the time; the sanitised text fields; the parsed price, shop id and image; in stock exactly when the stock parses to a positive number |
| ProductManagement.BlankStockIsOutOfStock | APNIDUKAN/src/pages/product-management.tsx:166-167 | a blank stock field sends no stock and marks the product out of stock |
| ProductManagement.TypedStockRoundTrips | APNIDUKAN/src/pages/product-management.tsx:166-167 | a typed natural number is sent as that number, and the product is in stock exactly when it is positive |
| ProductManagement.HexStockIsBase16 | APNIDUKAN/src/pages/product-management.tsx:166-167 | with no radix given to `parseInt`, a typed stock `0x` or `0X` followed by hex digits is sent as their base-16 value and is in stock exactly when that value is positive |
| ProductManagement.HexStockExample | APNIDUKAN/src/pages/product-management.tsx:166-167 | the typed stock `"0x10"` is sent as 16, in stock |
| ProductManagement.AfterSave | APNIDUKAN/src/pages/product-management.tsx:171-179 | a new product's reply is appended; an edit's reply replaces every product with the edited id and the list keeps its length |
| ProductManagement.EditReplacesInPlace | APNIDUKAN/src/pages/product-management.tsx:171-173 | after an edit the reply sits where the edited product was, and every other product is unchanged and keeps its place |
| ProductManagement.Removed | APNIDUKAN/src/pages/product-management.tsx:193 | the optimistic removal keeps exactly the products without the id, never more |
| ProductManagement.RemovedKeepsOthers | APNIDUKAN/src/pages/product-management.tsx:193 | every other product is kept as often as it was listed |
| ProductManagement.Page.constructor | APNIDUKAN/src/pages/product-management.tsx:20-31 | the page holds the loaded products, with the modal closed, nothing being edited, submitted or uploaded, and no errors |
| ProductManagement.Page.Save | APNIDUKAN/src/pages/product-management.tsx:138-185 | a failed upload stops with its message and sends nothing; otherwise the built draft is sent, and only a reply lists it, closes the modal and clears the errors; submitting always ends |
| ProductManagement.Page.UploadImage | APNIDUKAN/src/pages/product-management.tsx:141-157 | the uploaded URL, the typed or default one without a file, and nothing after a failed upload; uploading ends once a file was handled |
| ProductManagement.Page.CloseModal | APNIDUKAN/src/pages/product-management.tsx:112-116 | the modal closes, nothing is being edited and the errors are empty; the list and the flags stay |
| ProductManagement.Page.Settle | APNIDUKAN/src/pages/product-management.tsx:171-185 | a reply is listed by `AfterSave`, the modal closes and the errors clear; a failure changes nothing |
| ProductManagement.Page.Submit | APNIDUKAN/src/pages/product-management.tsx:129-185 | validation errors become the error map and nothing is sent; otherwise `Save` |
| ProductManagement.Page.HandleSubmit | APNIDUKAN/src/pages/product-management.tsx:118-186 | the errors are those of `validateProductForm`; a draft is only sent for a positive price, and only a saved reply changes the list |
| ProductManagement.Page.BeginDelete | APNIDUKAN/src/pages/product-management.tsx:188-193 | without confirmation nothing; otherwise the snapshot is the old list and the list becomes `Removed` |
| ProductManagement.Page.SettleDelete | APNIDUKAN/src/pages/product-management.tsx:195-202 | a success keeps the optimistic list, a failure restores the snapshot exactly |

## Left out

- Network, `fetch` and `FormData`: a remote answer is a parameter (a reply datatype). The six-slot queue, the cache and the deduplication around it are modelled.
- Timers and `async`: `setTimeout`, `setInterval` and awaited promises become explicit begin/settle or tick events. Delays of 150–800 ms that only precede a navigation or a state flip are not modelled.
- Navigation: `navigate(...)` becomes the returned target path. The `state: { from }` of the sign-in redirect is dropped.
- Rendering, styling, animation and icons: only the view decisions the code branches on are modelled (spinner, empty notices, disabled buttons, the shown list).
- Toasts: `Toasts` is the full store. It is wired into the sign-in form and sign-up page. On the other pages the toast calls are not modelled, because they do not feed back into any state.
- `localStorage` and JSON: treated as a value that is written and read back. `JSON.parse` of a corrupt value is a parameter (`LoadCart` falls back to the empty cart).
- Floating point: prices, totals and quantities are integers. Distances, coordinates and the product page's parsed price are `real`. `parseFloat` of the price field is a parameter.
- `calculateDistance` and `getUserLocation`: the distance function and the detected location are parameters of the shops page.
- `toLowerCase` lowers ASCII letters only.
- `null` versus `undefined` of optional fields: both are `None`.
- `Object.entries` display order of the cart page's shop cards: the grouping is a map, so the order of cards is not modelled.
- express-validator: `trim()` is modelled as storing the trimmed field. `isEmail` is a parameter (`emailOk`). `normalizeEmail` is not modelled. A missing text field arrives as the empty string.
- Patches: `Object.assign` copies only the fields the patch datatypes list. A body field outside them (for example one that overwrites `id` on a user or shop) is not modelled.
- Random ids and timestamps (`Math.random`, `Date.now`, `new Date().toISOString()`): the id and the time are parameters.
- `authenticateToken`, `optionalAuth` and password hashing are not part of this model. The caller is given as `req.user`.
- Server error handlers (`500 Server error`): the route bodies modelled cannot throw, so these branches are not modelled.
- Loading effects of the pages (`loadData`, `loadShops`, `loadOrders`) and their `cancelled` flags: the loaded data is a constructor parameter.
- `handleOpenModal` and `handleImageFile` of product management: the chosen file is the `Upload` parameter.
- `cn`: `.flat()` is the identity on its declared argument types, so it is not modelled. A record argument is kept abstract, since `cn` drops it.
- ImagePlayer.Player.Render: the render between an images change and the reset effect, where the index can be out of range, is not modelled. `Render` requires the index to be valid.
- `VITE_API_URL`: the deployment override of `API_BASE_URL` (`api.ts` line 3) is not modelled; the base URL is the default constant, and `Api.OriginDropsFirstApi` states the origin for any other base URL.
- Strings.ParseInt: the result is an exact integer; JavaScript's `parseInt` returns a double, which rounds values beyond 2^53.
- Each remaining page of the frontend (home, pricing, dashboards, shop creation, profile editing and the demo components) is not part of this model.

Behaviour of the code worth knowing:

- In `api.ts`, writes and unkeyed reads call `makeRequest` directly, so they do not go through the six-slot queue.
- `makeRequest` spreads the caller's headers after `Content-Type`, so a caller can override it.
- The order status route accepts any of the six statuses from any status. Only the management page's buttons follow the forward flow.
- Order creation does not clear the `orders:` cache.
- The sign-in form sends every role to `/shopkeeper/dashboard`, whatever the comment beside it says.

# Order sheet and address book — a Dafny model

This project models the logic of a checkout front end: an order form for
three order types (standard, overseas, e-coupon), the schemas that check
the form and the payload it submits, an in-memory address book with page
reads and edits by id, the address list's page navigation, and the flag
behind the global loading overlay.

Modules, one per source file:

- `AddressSchemas`: the address record, `addressSchema` and `addressPaginationSchema`.
- `AddressStore`: the mock store. Its class `MockAddressStore` holds the
  `mockAddresses` array as a `seq<Address>`. `getAddressesByPage` reads a
  `slice` window. `addMockAddress` appends with the id `String(length + 1)`.
  `updateMockAddress` spreads a patch over the first record with the id.
  `deleteMockAddress` splices that record out.
- `AddressApi`: the async wrappers over the store. An unknown id becomes
  an error carrying the source's message.
- `OrderSchemas` and `FeatureOrderSchemas`: the two revisions of the order
  schemas. One uses the tags `G`/`O`/`E`, the other
  `STANDARD`/`OVERSEAS`/`ECOUPON`. Each has a form validator that returns
  the set of issue paths, with its two refinements (address, customs id),
  and a payload validator for the tagged union.
- `OrderForm` and `FeatureOrderForm`: `onFormSubmit` in each revision.
  Each finds the product, aborts when the product or payment is missing,
  assembles the payload, validates it, then submits. `HandleSubmit` adds
  the form-schema gate that the form library applies first.
- `AddressList`: the page count, the clamped previous/next moves, the page
  buttons, and the modal state handlers (class `AddressListView`).
- `GlobalUI`: the zustand store behind the overlay (class `GlobalUIStore`)
  and its last-call-wins behaviour.
- `Text`: the phone pattern `^\d{10,11}$` as a matcher, and `String(n)`.
- `Wrappers`: `Option`, `Result` and `Outcome`.

Two behaviours of the code worth stating outright:

- The overlay store is a boolean and a message, both overwritten by every
  call. `GlobalUI.NoReferenceCounting` proves that one `clearLoading` hides
  the overlay after any number of `setGlobalLoading(true)` calls.
- An added address is the last entry of the last page
  (`AddressList.NewAddressOnLastPage`). It is on page 1 only while the
  store held fewer than `pageSize` records.

## Model

| member | source | states |
|---|---|---|
| Text.MatchDigitRunIff | src/lib/schemas/address.schemas.ts:8 | the anchored matcher for `\d{lo,hi}` accepts exactly the strings of `lo` to `hi` ASCII digits |
| Text.PhoneNumberIff | src/lib/schemas/order.schemas.ts:33 | a phone passes `^\d{10,11}$` iff it has length 10 or 11 and only the characters `0`–`9` |
| Text.NatToDecimal | src/components/features/address/mock/data.ts:64 | `String(n)` is a non-empty string of digits with no leading zero |
| Text.DecimalRoundTrip | src/components/features/address/mock/data.ts:64 | reading back the decimal string of `n` gives `n` |
| Text.NatToDecimalInjective | src/components/features/address/mock/data.ts:64 | two counts give the same id string iff they are equal |
| AddressSchemas.AddressValidIff | src/lib/schemas/address.schemas.ts:3-10 | an address is valid iff `receiver`, `addr` and `zipCode` are non-empty and `phone` is 10–11 digits |
| AddressSchemas.AddressValidIgnoresIdAndDefault | src/lib/schemas/address.schemas.ts:4-9 | any `id` (including the add form's empty one) and any `isDefault`, absent or boolean, leave validity unchanged |
| AddressSchemas.PaginationIgnoresCounters | src/lib/schemas/address.schemas.ts:14-19 | page validity depends only on `data`; `total`, `page` and `pageSize` are unconstrained and not checked against `data` |
| AddressStore.IndexOfId | src/components/features/address/mock/data.ts:72 | `findIndex` by id gives -1 iff no record has the id, and otherwise the first position holding it |
| AddressStore.JsSlice | src/components/features/address/mock/data.ts:50 | `slice` with non-negative bounds is the window `start..min(end, len)` (empty past the end); it never returns more than `end - start` items |
| AddressStore.Page | src/components/features/address/mock/data.ts:47-58 | `total` is the store length; `page` and `pageSize` are echoed; at most `pageSize` items; for `page >= 1` the data is `store[(page-1)*pageSize .. min(page*pageSize, len)]`, or empty when the start is past the end |
| AddressStore.WithGeneratedId | src/components/features/address/mock/data.ts:62-65 | the appended record equals the input except its id, which is exactly `String(old length + 1)`: the canonical decimal (no leading zero) whose value is old length + 1, whatever id the input had |
| AddressStore.Merge | src/components/features/address/mock/data.ts:75 | each key present in the patch (`id` included) replaces the old value; every absent key keeps it |
| AddressStore.MergeEmptyPatch | src/components/features/address/mock/data.ts:75 | an empty patch leaves the record as it was |
| AddressStore.MergeIdempotent | src/components/features/address/mock/data.ts:75 | applying the same patch twice equals applying it once |
| AddressStore.RemoveAt | src/components/features/address/mock/data.ts:84 | `splice(i, 1)` shortens by one, keeps the other records in order, and removes exactly one copy of `s[i]` (multiset) |
| AddressStore.RemoveAtCount | src/components/features/address/mock/data.ts:81-85 | removing the record at `i` lowers the count of its id by one and leaves every other id's count unchanged |
| AddressStore.GeneratedIdMayRepeat | src/components/features/address/mock/data.ts:62-66 | ids `"1"`,`"2"`: delete `"1"` then add gives two records with id `"2"`, so ids need not be unique |
| AddressStore.MockAddressStore.constructor | src/components/features/address/mock/data.ts:3 | the store starts with the given records |
| AddressStore.MockAddressStore.GetAddressesByPage | src/components/features/address/mock/data.ts:47-58 | returns `Page` of the contents, with defaults 1 and 5, and changes nothing |
| AddressStore.MockAddressStore.AddMockAddress | src/components/features/address/mock/data.ts:61-68 | the new contents are the old ones plus the returned record, which carries the generated id |
| AddressStore.MockAddressStore.UpdateMockAddress | src/components/features/address/mock/data.ts:71-77 | unknown id: returns null and nothing changes; otherwise only the first match is replaced by the merged record, the length is unchanged, and that record is returned |
| AddressStore.MockAddressStore.DeleteMockAddress | src/components/features/address/mock/data.ts:80-86 | unknown id: returns false and nothing changes; otherwise returns true and the contents are the old ones without the first match |
| AddressApi.MergeFormValues | src/components/features/address/api/addressApi.ts:29 | updating with full form values stores those values, id included; the old `isDefault` survives only if the form gave none |
| AddressApi.FetchAddresses | src/components/features/address/api/addressApi.ts:10-15 | returns the store's page window for `page` (default 1) and `pageSize` (default 5) |
| AddressApi.AddAddress | src/components/features/address/api/addressApi.ts:18-23 | never fails; returns the record now last in the store, with the generated id |
| AddressApi.UpdateAddress | src/components/features/address/api/addressApi.ts:26-35 | unknown id: not-found error and store unchanged; otherwise returns the merged record, now stored at the first matching position |
| AddressApi.DeleteAddress | src/components/features/address/api/addressApi.ts:38-45 | unknown id: not-found error and store unchanged; otherwise succeeds, the first match is removed, and one fewer record has the id |
| OrderSchemas.ParseOrderType | src/lib/schemas/order.schemas.ts:27 | the order type parses iff it is `G`, `O` or `E`, and the parsed type prints back as the input |
| OrderSchemas.ParseOrderTypeTag | src/lib/schemas/order.schemas.ts:27 | printing then parsing an order type gives it back |
| OrderSchemas.FieldIssues | src/lib/schemas/order.schemas.ts:30-38 | a field path is reported iff its rule fails: unknown type; empty name, product, payment or receiver; phone not 10–11 digits |
| OrderSchemas.FormIssues | src/lib/schemas/order.schemas.ts:30-57 | adds the refinement paths: `addr` iff the type is `G`/`O` and addr is absent or empty; `customsId` iff the type is `O` and it is absent or empty; neither when the type is unknown |
| OrderSchemas.FormValidIff | src/lib/schemas/order.schemas.ts:30-57 | the form is accepted iff all field rules hold, `G`/`O` have a non-empty addr and `O` a non-empty customs id |
| OrderSchemas.PayloadIgnoresFieldRules | src/lib/schemas/order.schemas.ts:63-71 | payload validity does not depend on the name or phone, so an empty name or non-digit phone passes |
| FeatureOrderSchemas.ParseOrderType | src/features/order/order.schemas.ts:24 | the order type parses iff it is `STANDARD`, `OVERSEAS` or `ECOUPON` |
| FeatureOrderSchemas.FieldIssues | src/features/order/order.schemas.ts:27-36 | a field path is reported iff its rule fails; here the phone only has to be non-empty |
| FeatureOrderSchemas.FormIssues | src/features/order/order.schemas.ts:27-54 | `addr` is reported iff the type is `STANDARD`/`OVERSEAS` without a non-empty addr; `customsId` iff `OVERSEAS` without one; neither for an unknown type |
| FeatureOrderSchemas.FormValidIff | src/features/order/order.schemas.ts:27-54 | the form is accepted iff the type is known, the five text fields are non-empty, and addr and customs id are present where the type needs them |
| FeatureOrderSchemas.PhoneRuleWeaker | src/features/order/order.schemas.ts:30 | a phone of non-digits is rejected by the other revision and accepted by this one |
| OrderForm.FindProduct | src/components/features/order/components/OrderForm.tsx:99 | `find` gives none iff no product has the id, and otherwise the first product with it |
| OrderForm.Assemble | src/components/features/order/components/OrderForm.tsx:117-150 | fails iff the type is unknown; otherwise the variant matches the type, common fields are copied, `product` is `[selected]`, payment and discount are passed through, and `G`/`O` carry the form's addr and `O` its customs id |
| OrderForm.AssembledPayloadValidIff | src/components/features/order/components/OrderForm.tsx:126-153 | the assembled payload passes the payload schema iff the type is known, the discount is null or valid, and the keys its variant needs were given |
| OrderForm.ValidFormGivesValidPayload | src/components/features/order/components/OrderForm.tsx:126-153 | a form the form schema accepts, a resolved product, a payment and a null-or-valid discount always give a payload the payload schema accepts |
| OrderForm.OnFormSubmit | src/components/features/order/components/OrderForm.tsx:105-172 | aborts iff no product matches the watched id or the payment is missing; submits only the assembled payload and only if it is valid; otherwise reports the caught validation failure |
| OrderForm.HandleSubmit | src/components/features/order/components/OrderForm.tsx:178 | the handler runs iff the form schema passes, else its issues are shown; a valid form with a resolved product, a payment and a valid-or-null discount is always submitted |
| FeatureOrderForm.UnresolvedProductRejected | src/features/order/components/OrderForm.tsx:128-129 | a payload whose product did not resolve fails the payload schema |
| FeatureOrderForm.ValidFormGivesValidPayload | src/features/order/components/OrderForm.tsx:96-105 | spreading accepted form values with a resolved product, a payment and a null-or-valid discount gives a payload the schema accepts |
| FeatureOrderForm.OnFormSubmit | src/features/order/components/OrderForm.tsx:86-149 | aborts iff no product matches the form's id or the payment is missing; submits the unparsed spread payload only if it validates; otherwise reports the caught failure |
| FeatureOrderForm.HandleSubmit | src/features/order/components/OrderForm.tsx:155 | the handler runs iff the form schema passes; submitted payloads carry every form key and are valid; a valid form with resolved data is always submitted |
| AddressList.TotalPages | src/components/features/order/components/AddressList.tsx:67 | `ceil(total / pageSize)`: the pages cover the total, one page fewer would not, and it is 0 iff there are no addresses |
| AddressList.PrevPage | src/components/features/order/components/AddressList.tsx:143 | "previous" never goes below 1 and never moves forward |
| AddressList.NextPage | src/components/features/order/components/AddressList.tsx:165 | "next" never exceeds the page count and never moves back from a page within it |
| AddressList.NavigationInverse | src/components/features/order/components/AddressList.tsx:143-166 | "previous" stays put exactly at page 1 and "next" exactly at the last page, where the buttons are disabled; elsewhere each undoes the other |
| AddressList.PageButtons | src/components/features/order/components/AddressList.tsx:150 | the page buttons are `1..totalPages` in increasing order |
| AddressList.NewAddressOnLastPage | src/components/features/order/components/AddressList.tsx:67 | after an add, the new record is the last entry of the last page for the new total |
| AddressList.AddressListView.constructor | src/components/features/order/components/AddressList.tsx:18-20 | starts on page 1 with the modal closed and no address being edited |
| AddressList.AddressListView.HandleEditAddress | src/components/features/order/components/AddressList.tsx:32-35 | opens the modal on the chosen address |
| AddressList.AddressListView.HandleAddAddress | src/components/features/order/components/AddressList.tsx:37-40 | opens the modal with no address being edited |
| AddressList.AddressListView.CloseModal | src/components/features/order/components/AddressList.tsx:54-57 | closes the modal and clears the edited address |
| AddressList.AddressListView.GoToPreviousPage | src/components/features/order/components/AddressList.tsx:142-144 | sets the page to `max(p-1, 1)`, keeping it at least 1 and within the page count |
| AddressList.AddressListView.GoToNextPage | src/components/features/order/components/AddressList.tsx:164-166 | sets the page to `min(p+1, totalPages)`, so never past the last page |
| AddressList.AddressListView.GoToPage | src/components/features/order/components/AddressList.tsx:150-153 | a numbered button sets the page to its number, which lies in `1..totalPages` |
| GlobalUI.Apply | src/lib/stores/globalUIStore.ts:13-16 | after a call the overlay shows iff it was `setGlobalLoading(true, …)`; the message is the one given, absent included; `clearLoading` gives the initial state |
| GlobalUI.LastCallWins | src/lib/stores/globalUIStore.ts:13-16 | after any non-empty sequence of calls the state is what the last call alone produces |
| GlobalUI.NoReferenceCounting | src/lib/stores/globalUIStore.ts:13-16 | after any number of earlier calls, one `clearLoading` or `setGlobalLoading(false)` hides the overlay |
| GlobalUI.ClearIdempotent | src/lib/stores/globalUIStore.ts:15-16 | clearing twice equals clearing once |
| GlobalUI.GlobalUIStore.constructor | src/lib/stores/globalUIStore.ts:11-12 | starts not loading, with no message |
| GlobalUI.GlobalUIStore.SetGlobalLoading | src/lib/stores/globalUIStore.ts:13-14 | the flag and message become exactly the arguments, overwriting any earlier message |
| GlobalUI.GlobalUIStore.ClearLoading | src/lib/stores/globalUIStore.ts:15-16 | the flag becomes false and the message absent |

## Left out

- The simulated delays and the asynchrony of the address API (`setTimeout`
  before each call). Each call is modelled as one atomic step.
- `apiClient` (fetch, JSON, header merge, response validation) and the
  one-line `fetchProducts`/`fetchDiscount`/`fetchPayment`/`submitOrder`
  wrappers: network I/O. The submit mutation is modelled only as the
  payload it is called with (`Submitted(payload)`). Its success or failure
  callbacks (alerts, navigation) are not modelled.
- React Query and react-hook-form glue in `useAddresses`, `useOrderData`
  and `useOrderSheet`: caching, invalidation, loading and error flags.
  The fetched products, payment and discount are parameters. A payment not
  yet loaded is `None`; a discount is null or a value.
- Zod details beyond validity and issue paths: message texts, the order of
  issues (the model returns the set of paths), and unknown-key stripping.
  For the `G`/`O`/`E` revision, stripping changes nothing, because the
  assembled payload has only its variant's keys. So the parsed payload it
  submits equals the assembled one.
- JavaScript numbers. Page numbers, sizes and totals are integers; prices,
  rates and amounts are reals. NaN, infinities and fractional page
  arguments are not modelled.
- A `Partial<Address>` key present with the value `undefined` is modelled
  only for `isDefault`. An address's `isDefault` does not tell an absent
  key from an `undefined` one.
- `handleDeleteAddress`, which asks for a browser confirmation and then
  calls the delete mutation, and `handleSelectAddress`, which forwards to
  a callback: UI glue around the modelled API.
- The floating-point discounted price in `PaymentInfo`; all rendering; the
  modals' duplicated page arithmetic; the add/edit dispatch in
  `AddressEditModal`.
- `OrderForm.HandleSubmit` passes the form's own product id as the watched
  id. The form library's watched value equals it at submit time.
  `OrderForm.OnFormSubmit` keeps the two apart.
- `AddressList.TotalPages` requires a positive page size. The hook replaces
  a zero page size with its default (`data?.pageSize || pageSize`).
- `AddressStore.Page`: the exact window is stated only for `page >= 1` and
  `pageSize >= 0`. For other arguments the contract gives only the length
  bound. The body follows `slice`'s negative-index rule (page 0 is empty;
  negative pages count back from the end).
- The overlay store keeps no count of pending calls, so the model has
  none either.

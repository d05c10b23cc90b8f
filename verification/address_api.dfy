/** The address API used by the address-book hooks: each call forwards to
    the in-memory store and turns a "no such id" answer into a thrown
    error. The simulated network delays are not part of this model. */
module AddressApi {
  import opened Wrappers
  import opened AddressSchemas
  import opened AddressStore

  /** The message of the error thrown for an unknown id. */
  const NotFoundMessage: string := "주소를 찾을 수 없습니다."

  /** A thrown `Error` and its message. */
  datatype ApiError = ApiError(message: string)

  /** The patch that spreading a full set of form values makes: every
      field is present, except `isDefault` when the form left it out. */
  function PatchOf(values: Address): AddressPatch {
    AddressPatch(
      Some(values.id), Some(values.receiver), Some(values.addr),
      Some(values.zipCode), Some(values.phone),
      if values.isDefault.Some? then Some(values.isDefault) else None)
  }

  /** Merging form values replaces the whole record, id included, and keeps
      the old default flag only when the form has none. */
  lemma MergeFormValues(current: Address, values: Address)
    ensures Merge(current, PatchOf(values)) ==
      values.(isDefault := if values.isDefault.Some? then values.isDefault else current.isDefault)
  {
  }

  /** `fetchAddresses(page = 1, pageSize = 5)`: the store's page window,
      with the store left as it was. */
  method FetchAddresses(store: MockAddressStore, page: int := 1, pageSize: int := 5)
    returns (r: AddressPagination)
    ensures r == Page(store.addresses, page, pageSize)
  {
    r := store.GetAddressesByPage(page, pageSize);
  }

  /** `addAddress`: never fails; returns the record now last in the store. */
  method AddAddress(store: MockAddressStore, addressData: Address) returns (r: Address)
    modifies store
    ensures r == WithGeneratedId(addressData, |old(store.addresses)|)
    ensures store.addresses == old(store.addresses) + [r]
    ensures store.addresses[|store.addresses| - 1] == r
  {
    r := store.AddMockAddress(addressData);
  }

  /** `updateAddress`: fails with the not-found error and leaves the store
      alone when no record has the id; otherwise returns the merged record,
      which now sits at the first position that had the id. */
  method UpdateAddress(store: MockAddressStore, id: string, addressData: Address)
    returns (r: Result<Address, ApiError>)
    modifies store
    ensures var i := IndexOfId(old(store.addresses), id);
      if i == -1 then
        r == Err(ApiError(NotFoundMessage)) && store.addresses == old(store.addresses)
      else
        && r == Ok(Merge(old(store.addresses)[i], PatchOf(addressData)))
        && store.addresses == old(store.addresses)[i := r.value]
  {
    var updatedAddress := store.UpdateMockAddress(id, PatchOf(addressData));
    if updatedAddress.None? {
      return Err(ApiError(NotFoundMessage));
    }
    r := Ok(updatedAddress.value);
  }

  /** `deleteAddress`: fails with the not-found error and leaves the store
      alone when no record has the id; otherwise succeeds with the first
      such record removed, so one record fewer carries the id. */
  method DeleteAddress(store: MockAddressStore, id: string) returns (r: Outcome<ApiError>)
    modifies store
    ensures var i := IndexOfId(old(store.addresses), id);
      if i == -1 then
        r == Fail(ApiError(NotFoundMessage)) && store.addresses == old(store.addresses)
      else
        && r == Pass
        && store.addresses == RemoveAt(old(store.addresses), i)
        && CountId(store.addresses, id) == CountId(old(store.addresses), id) - 1
  {
    ghost var before := store.addresses;
    var success := store.DeleteMockAddress(id);
    if !success {
      return Fail(ApiError(NotFoundMessage));
    }
    RemoveAtCount(before, IndexOfId(before, id), id);
    r := Pass;
  }
}

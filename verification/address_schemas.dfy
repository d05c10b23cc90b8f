/** The address record and its validation rules (`addressSchema`,
    `addressPaginationSchema`). Field types are carried by the datatype;
    the predicates state the value rules the schema adds on top. */
module AddressSchemas {
  import opened Wrappers
  import opened Text

  /** One delivery address. `isDefault` is optional: `None` when absent. */
  datatype Address = Address(
    id: string,
    receiver: string,
    addr: string,
    zipCode: string,
    phone: string,
    isDefault: Option<bool>)

  /** One page of the address book as the store returns it. */
  datatype AddressPagination = AddressPagination(
    data: seq<Address>,
    total: int,
    page: int,
    pageSize: int)

  /** `addressSchema`: `id` is any string, `receiver`, `addr` and `zipCode`
      have at least one character, `phone` matches `^\d{10,11}$` and
      `isDefault` is absent or a boolean. */
  predicate AddressValid(a: Address) {
    && |a.receiver| >= 1
    && |a.addr| >= 1
    && |a.zipCode| >= 1
    && IsPhoneNumber(a.phone)
  }

  /** `addressPaginationSchema`: every element of `data` is a valid
      address; `total`, `page` and `pageSize` are any numbers. */
  predicate PaginationValid(p: AddressPagination) {
    forall i :: 0 <= i < |p.data| ==> AddressValid(p.data[i])
  }

  /** An address is valid exactly when its three text fields are non-empty
      and its phone is 10 or 11 ASCII digits; the id and the default flag
      play no part. */
  lemma AddressValidIff(a: Address)
    ensures AddressValid(a) <==>
      && a.receiver != [] && a.addr != [] && a.zipCode != []
      && (|a.phone| == 10 || |a.phone| == 11) && AllDigits(a.phone)
  {
    PhoneNumberIff(a.phone);
  }

  /** The id and the default flag never decide validity: the add form's
      empty id is accepted like any other. */
  lemma AddressValidIgnoresIdAndDefault(a: Address, id: string, isDefault: Option<bool>)
    ensures AddressValid(a.(id := id, isDefault := isDefault)) == AddressValid(a)
  {
  }

  /** A page is valid or not independently of its counters: `total`
      need not match the length of `data`. */
  lemma PaginationIgnoresCounters(p: AddressPagination, total: int, page: int, pageSize: int)
    ensures PaginationValid(p.(total := total, page := page, pageSize := pageSize)) == PaginationValid(p)
  {
  }
}

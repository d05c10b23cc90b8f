/** The in-memory address book that stands in for a server: a mutable
    array of addresses with a page read, an append that generates the id,
    a merge-update and a delete, each by the first record whose id matches. */
module AddressStore {
  import opened Wrappers
  import opened Text
  import opened AddressSchemas

  /** `Partial<Address>`: each key is either absent (`None`) or present with
      a value. `isDefault` may be present with the value `undefined`. */
  datatype AddressPatch = AddressPatch(
    id: Option<string>,
    receiver: Option<string>,
    addr: Option<string>,
    zipCode: Option<string>,
    phone: Option<string>,
    isDefault: Option<Option<bool>>)

  function Min(a: int, b: int): int { if a < b then a else b }

  /** `findIndex(addr => addr.id === id)`: the first position holding the
      id, or -1 when there is none. */
  function IndexOfId(s: seq<Address>, id: string): (r: int)
    ensures -1 <= r < |s|
    ensures r == -1 <==> forall k :: 0 <= k < |s| ==> s[k].id != id
    ensures r >= 0 ==> s[r].id == id && forall k :: 0 <= k < r ==> s[k].id != id
    decreases |s|
  {
    if s == [] then -1
    else if s[0].id == id then 0
    else
      var k := IndexOfId(s[1..], id);
      if k == -1 then -1 else k + 1
  }

  /** How `Array.prototype.slice` turns an integer argument into a
      position: negative values count back from the end; the result is
      clamped to `0..len`. */
  function SliceIndex(k: int, len: nat): (r: nat)
    ensures r <= len
    ensures 0 <= k ==> r == Min(k, len)
  {
    if k < 0 then (if len + k < 0 then 0 else len + k)
    else if k > len then len
    else k
  }

  /** `s.slice(start, end)` for integer arguments. */
  function JsSlice<T>(s: seq<T>, start: int, end: int): (r: seq<T>)
    ensures 0 <= start <= end ==> r == if start <= |s| then s[start..Min(end, |s|)] else []
    ensures start <= end ==> |r| <= end - start
  {
    var from, to := SliceIndex(start, |s|), SliceIndex(end, |s|);
    if from < to then s[from..to] else []
  }

  /** `getAddressesByPage(page, pageSize)` on the store contents `s`. */
  function Page(s: seq<Address>, page: int, pageSize: int): (r: AddressPagination)
    ensures r.total == |s| && r.page == page && r.pageSize == pageSize
    ensures pageSize >= 0 ==> |r.data| <= pageSize
    ensures page >= 1 && pageSize >= 0 ==>
      var start := (page - 1) * pageSize;
      0 <= start && r.data == if start <= |s| then s[start..Min(start + pageSize, |s|)] else []
  {
    var startIndex := (page - 1) * pageSize;
    var endIndex := startIndex + pageSize;
    AddressPagination(JsSlice(s, startIndex, endIndex), |s|, page, pageSize)
  }

  /** `{ ...address, id: String(count + 1) }`: the record `addMockAddress`
      appends to a store of `count` records. */
  function WithGeneratedId(address: Address, count: nat): (r: Address)
    ensures r.(id := address.id) == address
    ensures r.id == NatToDecimal(count + 1)
    ensures AllDigits(r.id) && DecimalValue(r.id) == count + 1
  {
    DecimalRoundTrip(count + 1);
    address.(id := NatToDecimal(count + 1))
  }

  /** `{ ...current, ...patch }`: every key present in the patch replaces
      the current value; absent keys keep it. */
  function Merge(current: Address, patch: AddressPatch): (r: Address)
    ensures patch.id.Some? ==> r.id == patch.id.value
    ensures patch.id.None? ==> r.id == current.id
    ensures patch.receiver.Some? ==> r.receiver == patch.receiver.value
    ensures patch.receiver.None? ==> r.receiver == current.receiver
    ensures patch.addr.Some? ==> r.addr == patch.addr.value
    ensures patch.addr.None? ==> r.addr == current.addr
    ensures patch.zipCode.Some? ==> r.zipCode == patch.zipCode.value
    ensures patch.zipCode.None? ==> r.zipCode == current.zipCode
    ensures patch.phone.Some? ==> r.phone == patch.phone.value
    ensures patch.phone.None? ==> r.phone == current.phone
    ensures patch.isDefault.Some? ==> r.isDefault == patch.isDefault.value
    ensures patch.isDefault.None? ==> r.isDefault == current.isDefault
  {
    Address(
      patch.id.GetOr(current.id),
      patch.receiver.GetOr(current.receiver),
      patch.addr.GetOr(current.addr),
      patch.zipCode.GetOr(current.zipCode),
      patch.phone.GetOr(current.phone),
      patch.isDefault.GetOr(current.isDefault))
  }

  /** The empty patch changes nothing. */
  lemma MergeEmptyPatch(a: Address)
    ensures Merge(a, AddressPatch(None, None, None, None, None, None)) == a
  {
  }

  /** Applying the same patch twice is the same as applying it once. */
  lemma MergeIdempotent(a: Address, patch: AddressPatch)
    ensures Merge(Merge(a, patch), patch) == Merge(a, patch)
  {
  }

  /** `splice(i, 1)`: the sequence without position `i`, the others in
      their original order. */
  function RemoveAt<T>(s: seq<T>, i: nat): (r: seq<T>)
    requires i < |s|
    ensures |r| == |s| - 1
    ensures forall k :: 0 <= k < i ==> r[k] == s[k]
    ensures forall k :: i <= k < |r| ==> r[k] == s[k + 1]
    ensures multiset(r) + multiset{s[i]} == multiset(s)
  {
    assert s == s[..i] + [s[i]] + s[i + 1..];
    s[..i] + s[i + 1..]
  }

  /** How many records carry the id. */
  function CountId(s: seq<Address>, id: string): nat
    decreases |s|
  {
    if s == [] then 0 else (if s[0].id == id then 1 else 0) + CountId(s[1..], id)
  }

  lemma {:induction false} CountIdConcat(a: seq<Address>, b: seq<Address>, id: string)
    ensures CountId(a + b, id) == CountId(a, id) + CountId(b, id)
    decreases |a|
  {
    if a != [] {
      assert (a + b)[0] == a[0] && (a + b)[1..] == a[1..] + b;
      CountIdConcat(a[1..], b, id);
    } else {
      assert a + b == b;
    }
  }

  /** Removing the record at `i` lowers the count of its id by one and
      leaves the count of every other id as it was. */
  lemma RemoveAtCount(s: seq<Address>, i: nat, id: string)
    requires i < |s|
    ensures CountId(RemoveAt(s, i), id) == CountId(s, id) - (if s[i].id == id then 1 else 0)
  {
    assert s == s[..i] + ([s[i]] + s[i + 1..]);
    CountIdConcat(s[..i], [s[i]] + s[i + 1..], id);
    CountIdConcat([s[i]], s[i + 1..], id);
    CountIdConcat(s[..i], s[i + 1..], id);
    assert CountId([s[i]], id) == if s[i].id == id then 1 else 0 by {
      assert [s[i]][1..] == [];
    }
  }

  /** Generated ids only depend on the length, so after a delete an add can
      repeat an id that is still in the store. */
  lemma GeneratedIdMayRepeat(first: Address, second: Address, input: Address)
    requires first.id == "1" && second.id == "2"
    ensures var before := RemoveAt([first, second], IndexOfId([first, second], "1"));
            var after := before + [WithGeneratedId(input, |before|)];
            |after| == 2 && after[0].id == after[1].id == "2"
  {
  }

  /** The module-level `mockAddresses` array and the functions that read
      and edit it. */
  class MockAddressStore {
    var addresses: seq<Address>

    constructor (initial: seq<Address>)
      ensures addresses == initial
    {
      addresses := initial;
    }

    /** `getAddressesByPage`: reads a page window and never changes the
        store. */
    method GetAddressesByPage(page: int := 1, pageSize: int := 5) returns (r: AddressPagination)
      ensures r == Page(addresses, page, pageSize)
      ensures r.total == |addresses| && r.page == page && r.pageSize == pageSize
    {
      r := Page(addresses, page, pageSize);
    }

    /** `addMockAddress`: appends the input with a generated id and
        returns the appended record. */
    method AddMockAddress(address: Address) returns (r: Address)
      modifies this
      ensures r == WithGeneratedId(address, |old(addresses)|)
      ensures addresses == old(addresses) + [r]
    {
      r := WithGeneratedId(address, |addresses|);
      addresses := addresses + [r];
    }

    /** `updateMockAddress`: merges the patch into the first record with
        the id and returns the new record, or returns null and changes
        nothing when no record has the id. */
    method UpdateMockAddress(id: string, updatedData: AddressPatch) returns (r: Option<Address>)
      modifies this
      ensures var i := IndexOfId(old(addresses), id);
        if i == -1 then r == None && addresses == old(addresses)
        else addresses == old(addresses)[i := Merge(old(addresses)[i], updatedData)]
             && r == Some(addresses[i])
    {
      var index := IndexOfId(addresses, id);
      if index == -1 {
        return None;
      }
      addresses := addresses[index := Merge(addresses[index], updatedData)];
      r := Some(addresses[index]);
    }

    /** `deleteMockAddress`: removes the first record with the id and
        reports whether there was one. */
    method DeleteMockAddress(id: string) returns (deleted: bool)
      modifies this
      ensures var i := IndexOfId(old(addresses), id);
        deleted == (i != -1)
        && addresses == if i == -1 then old(addresses) else RemoveAt(old(addresses), i)
    {
      var index := IndexOfId(addresses, id);
      if index == -1 {
        return false;
      }
      addresses := RemoveAt(addresses, index);
      deleted := true;
    }
  }
}

/** The address list's page navigation and edit-modal state: the current
    page, whether the add/edit modal is open, and which address it edits.
    The page count is the ceiling of the total over the page size. */
module AddressList {
  import opened Wrappers
  import opened AddressSchemas
  import opened AddressStore

  /** The page size the list asks the address hook for. */
  const ListPageSize: nat := 5

  /** `Math.ceil(totalAddresses / pageSize)` for a positive page size. */
  function TotalPages(total: nat, pageSize: nat): (r: nat)
    requires pageSize > 0
    ensures r * pageSize >= total
    ensures r > 0 ==> (r - 1) * pageSize < total
    ensures r == 0 <==> total == 0
  {
    var r := (total + pageSize - 1) / pageSize;
    var m := (total + pageSize - 1) % pageSize;
    assert total + pageSize - 1 == r * pageSize + m && 0 <= m < pageSize;
    assert (r - 1) * pageSize == r * pageSize - pageSize;
    r
  }

  /** The pagination controls are shown only when there is more than one
      page. */
  predicate ShowPagination(totalPages: int) {
    totalPages > 1
  }

  /** `prev => Math.max(prev - 1, 1)`. */
  function PrevPage(p: int): (r: int)
    ensures r >= 1
    ensures p >= 1 ==> r <= p
  {
    if p - 1 > 1 then p - 1 else 1
  }

  /** `prev => Math.min(prev + 1, totalPages)`. */
  function NextPage(p: int, totalPages: int): (r: int)
    ensures r <= totalPages
    ensures p <= totalPages ==> r >= p
  {
    if p + 1 < totalPages then p + 1 else totalPages
  }

  /** Within `1..totalPages`, "previous" stays put exactly at page 1 and
      "next" exactly at the last page, where their buttons are disabled;
      elsewhere each undoes the other. */
  lemma NavigationInverse(p: int, totalPages: int)
    requires 1 <= p <= totalPages
    ensures PrevPage(p) == p <==> p == 1
    ensures NextPage(p, totalPages) == p <==> p == totalPages
    ensures p < totalPages ==> PrevPage(NextPage(p, totalPages)) == p
    ensures p > 1 ==> NextPage(PrevPage(p), totalPages) == p
  {
  }

  /** `Array.from({ length: totalPages }, (_, i) => i + 1)`: the page
      buttons `1, 2, ..., totalPages`. */
  function PageButtons(totalPages: nat): (r: seq<int>)
    ensures |r| == totalPages
    ensures forall i :: 0 <= i < |r| ==> r[i] == i + 1
    ensures forall i, j :: 0 <= i < j < |r| ==> r[i] < r[j]
  {
    if totalPages == 0 then [] else PageButtons(totalPages - 1) + [totalPages]
  }

  /** After an add, the new record is the last entry of the last page that
      the list computes for the new total. */
  lemma NewAddressOnLastPage(s: seq<Address>, input: Address, pageSize: nat)
    requires pageSize > 0
    ensures var after := s + [WithGeneratedId(input, |s|)];
      var data := Page(after, TotalPages(|after|, pageSize), pageSize).data;
      data != [] && data[|data| - 1] == WithGeneratedId(input, |s|)
  {
  }

  /** The list's state cells and their handlers. */
  class AddressListView {
    var currentPage: int
    var isModalOpen: bool
    var editingAddress: Option<Address>

    /** The current page never drops below 1. */
    ghost predicate Valid()
      reads this
    {
      currentPage >= 1
    }

    constructor ()
      ensures Valid()
      ensures currentPage == 1 && !isModalOpen && editingAddress == None
    {
      currentPage := 1;
      isModalOpen := false;
      editingAddress := None;
    }

    /** The "previous" button is disabled on page 1. */
    predicate PrevDisabled()
      reads this
    {
      currentPage == 1
    }

    /** The "next" button is disabled on the last page. */
    predicate NextDisabled(totalPages: int)
      reads this
    {
      currentPage == totalPages
    }

    /** `handleEditAddress`: opens the modal on the chosen address. */
    method HandleEditAddress(address: Address)
      modifies this
      ensures isModalOpen && editingAddress == Some(address)
      ensures currentPage == old(currentPage)
    {
      editingAddress := Some(address);
      isModalOpen := true;
    }

    /** `handleAddAddress`: opens the modal with no address to edit. */
    method HandleAddAddress()
      modifies this
      ensures isModalOpen && editingAddress == None
      ensures currentPage == old(currentPage)
    {
      editingAddress := None;
      isModalOpen := true;
    }

    /** `closeModal`: shuts the modal and forgets the edited address. */
    method CloseModal()
      modifies this
      ensures !isModalOpen && editingAddress == None
      ensures currentPage == old(currentPage)
    {
      isModalOpen := false;
      editingAddress := None;
    }

    /** The "previous" button; it is only rendered with more than one page. */
    method GoToPreviousPage(totalPages: int)
      requires Valid() && ShowPagination(totalPages)
      modifies this`currentPage
      ensures Valid()
      ensures currentPage == PrevPage(old(currentPage))
      ensures old(currentPage) <= totalPages ==> currentPage <= totalPages
    {
      currentPage := PrevPage(currentPage);
    }

    /** The "next" button; it is only rendered with more than one page. */
    method GoToNextPage(totalPages: int)
      requires Valid() && ShowPagination(totalPages)
      modifies this`currentPage
      ensures Valid()
      ensures currentPage == NextPage(old(currentPage), totalPages)
      ensures currentPage <= totalPages
    {
      currentPage := NextPage(currentPage, totalPages);
    }

    /** A numbered page button. */
    method GoToPage(totalPages: nat, page: int)
      requires Valid() && ShowPagination(totalPages)
      requires page in PageButtons(totalPages)
      modifies this`currentPage
      ensures Valid()
      ensures currentPage == page && 1 <= currentPage <= totalPages
    {
      currentPage := page;
    }
  }
}

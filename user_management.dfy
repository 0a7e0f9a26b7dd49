/**
 * The user management page: the query object it sends, the handlers
 * behind its search box, role filter and pager, the "Showing X to Y"
 * indices of its table, the active-parent and active-nanny counts, and
 * the labels, colours and avatar initials of a user row.
 */
module UserManagement {
  import opened JsValues
  import opened JsStrings
  import opened ApiShapes
  import Pagination
  import BookingManagement

  /** The page size the page is created with (`useState(10)`, never changed). */
  const InitialLimit: int := 10

  /** The query object `{ page, limit, searchTerm?, role? }`. */
  datatype UserQuery = UserQuery(page: int, limit: int, searchTerm: Option<string>, role: Option<string>)

  /** The `queryParams` memo: search term and role are added only when non-empty; nothing is trimmed. */
  method BuildQueryParams(page: int, limit: int, searchTerm: string, role: string) returns (q: UserQuery)
    ensures q.page == page && q.limit == limit
    ensures q.searchTerm.Some? <==> searchTerm != ""
    ensures q.searchTerm.Some? ==> q.searchTerm.value == searchTerm
    ensures q.role.Some? <==> role != ""
    ensures q.role.Some? ==> q.role.value == role
  {
    q := UserQuery(page, limit, None, None);
    if searchTerm != "" {
      q := q.(searchTerm := Some(searchTerm));
    }
    if role != "" {
      q := q.(role := Some(role));
    }
  }

  /** The role a filter choice stores: "all" clears the role, anything else is kept. */
  function RoleFor(choice: string): (role: string)
    ensures choice == "all" ==> role == ""
    ensures choice != "all" ==> role == choice
    ensures role != "" <==> choice != "all" && choice != ""
  {
    if choice == "all" then "" else choice
  }

  /** `(currentPage - 1) * itemsPerPage`: index of the first row of the page. */
  function StartIndex(currentPage: int, itemsPerPage: int): int {
    (currentPage - 1) * itemsPerPage
  }

  /** `Math.min(startIndex + itemsPerPage, totalItems)`: one past the last row of the page. */
  function EndIndex(currentPage: int, itemsPerPage: int, totalItems: int): (e: int)
    ensures e <= totalItems
    ensures e - StartIndex(currentPage, itemsPerPage) <= itemsPerPage
    ensures StartIndex(currentPage, itemsPerPage) + itemsPerPage <= totalItems ==>
      e - StartIndex(currentPage, itemsPerPage) == itemsPerPage
    ensures itemsPerPage >= 0 && StartIndex(currentPage, itemsPerPage) <= totalItems ==>
      StartIndex(currentPage, itemsPerPage) <= e
  {
    Pagination.Min(StartIndex(currentPage, itemsPerPage) + itemsPerPage, totalItems)
  }

  /** This table's "Showing startIndex + 1 to endIndex" is the booking page's range. */
  lemma ShowingAgreesWithBookingPage(currentPage: int, itemsPerPage: int, totalItems: int)
    ensures BookingManagement.ShowingRange(currentPage, itemsPerPage, totalItems)
         == BookingManagement.ShownRange(StartIndex(currentPage, itemsPerPage) + 1,
                                         EndIndex(currentPage, itemsPerPage, totalItems))
  {
    assert currentPage * itemsPerPage == (currentPage - 1) * itemsPerPage + itemsPerPage;
  }

  /** A user as the backend sends it (the fields the page reads). */
  datatype User = User(name: string, email: string, role: string, status: string, profileImage: string)

  /** `userData.filter(u => u.role === role && u.status === 'ACTIVE')`. */
  function ActiveWithRole(users: seq<User>, role: string): (r: seq<User>)
    ensures |r| <= |users|
    ensures forall k :: 0 <= k < |r| ==> r[k].role == role && r[k].status == "ACTIVE"
    ensures forall u :: u in users && u.role == role && u.status == "ACTIVE" <==> u in r
    ensures forall u :: multiset(r)[u] == if u.role == role && u.status == "ACTIVE" then multiset(users)[u] else 0
  {
    if users == [] then []
    else
      var rest := ActiveWithRole(users[1..], role);
      assert forall u :: u in users <==> u == users[0] || u in users[1..];
      assert users == [users[0]] + users[1..];
      assert multiset(users) == multiset([users[0]]) + multiset(users[1..]);
      if users[0].role == role && users[0].status == "ACTIVE" then [users[0]] + rest else rest
  }

  /** Users of two different roles are counted apart, so the two counts never exceed the user list. */
  lemma {:induction false} ActiveCountsDisjoint(users: seq<User>, role1: string, role2: string)
    requires role1 != role2
    ensures |ActiveWithRole(users, role1)| + |ActiveWithRole(users, role2)| <= |users|
  {
    if users != [] {
      ActiveCountsDisjoint(users[1..], role1, role2);
    }
  }

  /** The "Active Parents" and "Active Nannies" cards together count at most the listed users. */
  lemma ActiveParentsAndNannies(users: seq<User>)
    ensures |ActiveWithRole(users, "PARENT")| + |ActiveWithRole(users, "NANNY")| <= |users|
  {
    ActiveCountsDisjoint(users, "PARENT", "NANNY");
  }

  /** The role badge: PARENT and NANNY get a readable label, other values are shown as they are. */
  function RoleLabel(role: string): (text: string)
    ensures role == "PARENT" ==> text == "Parent"
    ensures role == "NANNY" ==> text == "Nanny"
    ensures text != role <==> role == "PARENT" || role == "NANNY"
  {
    if role == "PARENT" then "Parent" else if role == "NANNY" then "Nanny" else role
  }

  /** The status badge: ACTIVE and INACTIVE get a readable label, other values are shown as they are. */
  function StatusLabel(status: string): (text: string)
    ensures status == "ACTIVE" ==> text == "Active"
    ensures status == "INACTIVE" ==> text == "Inactive"
    ensures text != status <==> status == "ACTIVE" || status == "INACTIVE"
  {
    if status == "ACTIVE" then "Active" else if status == "INACTIVE" then "Inactive" else status
  }

  const Gray: string := "bg-gray-100 text-gray-800"

  /** `roleColors[role] || gray`. */
  function RoleColor(role: string): (cls: string)
    ensures role == "PARENT" ==> cls == "bg-pink-100 text-pink-800"
    ensures role == "NANNY" ==> cls == "bg-blue-100 text-blue-800"
    ensures role == "ADMIN" ==> cls == "bg-purple-100 text-purple-800"
    ensures cls == Gray <==> role != "PARENT" && role != "NANNY" && role != "ADMIN"
  {
    if role == "PARENT" then "bg-pink-100 text-pink-800"
    else if role == "NANNY" then "bg-blue-100 text-blue-800"
    else if role == "ADMIN" then "bg-purple-100 text-purple-800"
    else Gray
  }

  /** `statusColors[status] || gray`; INACTIVE's own entry is the gray class too. */
  function StatusColor(status: string): (cls: string)
    ensures status == "ACTIVE" ==> cls == "bg-green-100 text-green-800"
    ensures status == "SUSPENDED" ==> cls == "bg-red-100 text-red-800"
    ensures status != "ACTIVE" && status != "SUSPENDED" ==> cls == Gray
  {
    if status == "ACTIVE" then "bg-green-100 text-green-800"
    else if status == "INACTIVE" then "bg-gray-100 text-gray-800"
    else if status == "SUSPENDED" then "bg-red-100 text-red-800"
    else Gray
  }

  /** The avatar fallback: the first character of every space-separated part of the name. */
  function AvatarFallback(user: User): (text: string)
    ensures text == WordStarts(user.name, true)
    ensures ' ' !in text
  {
    InitialsAreWordStarts(user.name);
    Initials(user.name)
  }

  datatype UserListing = UserListing(users: seq<User>, meta: Meta)

  /** `users?.data?.data || []` and `users?.data?.meta || DefaultMeta`. */
  function ReadListing(resp: Option<Response<User>>): (l: UserListing)
    ensures l.users == Records(resp)
    ensures MetaOf(resp).Some? ==> l.meta == MetaOf(resp).value
    ensures MetaOf(resp).None? ==> l.meta == Meta(Some(0), Some(10), Some(1), Some(1))
  {
    UserListing(Records(resp), MetaOrDefault(resp))
  }

  /** The page's own state: page, page size, search term and role. */
  class UserManagementPage {
    var page: int
    var limit: int
    var searchTerm: string
    var role: string

    constructor ()
      ensures page == 1 && limit == InitialLimit && searchTerm == "" && role == ""
    {
      page := 1;
      limit := InitialLimit;
      searchTerm := "";
      role := "";
    }

    /** handleSearch: stores the term as typed and goes back to page 1. */
    method HandleSearch(value: string)
      modifies this
      ensures searchTerm == value && page == 1
      ensures role == old(role) && limit == old(limit)
    {
      searchTerm := value;
      page := 1;
    }

    /** handleRoleFilter: "all" clears the role, any other choice is stored; back to page 1. */
    method HandleRoleFilter(value: string)
      modifies this
      ensures role == RoleFor(value) && page == 1
      ensures searchTerm == old(searchTerm) && limit == old(limit)
    {
      role := RoleFor(value);
      page := 1;
    }

    /** handlePageChange: the requested page, exactly. */
    method HandlePageChange(newPage: int)
      modifies this
      ensures page == newPage
      ensures searchTerm == old(searchTerm) && role == old(role) && limit == old(limit)
    {
      page := newPage;
    }

    /** The table's Previous button: `onPageChange(currentPage - 1)`, disabled on page 1 and while loading. */
    method ClickPrevious(isLoading: bool)
      modifies this
      ensures page == if old(page) == 1 || isLoading then old(page) else old(page) - 1
      ensures 1 <= old(page) ==> 1 <= page <= old(page)
      ensures searchTerm == old(searchTerm) && role == old(role) && limit == old(limit)
    {
      if !(page == 1 || isLoading) {
        HandlePageChange(page - 1);
      }
    }

    /** The table's Next button: `onPageChange(currentPage + 1)`, disabled on the last page and while loading. */
    method ClickNext(totalPages: int, isLoading: bool)
      modifies this
      ensures page == if old(page) == totalPages || isLoading then old(page) else old(page) + 1
      ensures 1 <= old(page) <= totalPages ==> old(page) <= page <= totalPages
      ensures searchTerm == old(searchTerm) && role == old(role) && limit == old(limit)
    {
      if !(page == totalPages || isLoading) {
        HandlePageChange(page + 1);
      }
    }
  }
}

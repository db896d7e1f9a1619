/**
 * The admin user list: the whole user list is filtered on the client (e-mail substring, first-
 * or last-name substring, role equality, all ignoring case) and one page of ten is shown.
 */
module UsersList {
  import opened Base
  import Seqs
  import Text
  import Paging
  import opened Notifications

  const ItemsPerPage := 10
  const NoMatchesText := "No se encontraron usuarios que coincidan con los filtros."
  const NoUsersText := "No hay usuarios registrados."
  const LoadFailedText := "No se pudieron cargar los usuarios."
  const LoadErrorText := "Error al cargar usuarios."
  const FiltersClearedText := "Filtros limpiados."

  datatype User = User(id: string, email: string, firstName: string, lastName: string, role: string)

  /** The lower-cased e-mail contains the lower-cased filter text. */
  predicate MatchesEmail(u: User, filterEmail: string) {
    Text.Contains(Text.ToLower(u.email), Text.ToLower(filterEmail))
  }

  /** The lower-cased first or last name contains `term` (already lower-cased). */
  predicate MatchesName(u: User, term: string) {
    Text.Contains(Text.ToLower(u.firstName), term) || Text.Contains(Text.ToLower(u.lastName), term)
  }

  /** The role equals the filter, ignoring case. */
  predicate MatchesRole(u: User, filterRole: string) {
    Text.ToLower(u.role) == Text.ToLower(filterRole)
  }

  /** A user passes every filter that is set; an empty filter does not constrain. */
  predicate Selected(u: User, filterEmail: string, filterName: string, filterRole: string) {
    && (filterEmail != "" ==> MatchesEmail(u, filterEmail))
    && (filterName != "" ==> MatchesName(u, Text.ToLower(filterName)))
    && (filterRole != "" ==> MatchesRole(u, filterRole))
  }

  /** The reference definition of the filtered list: one pass keeping the selected users. */
  function Selection(all: seq<User>, filterEmail: string, filterName: string, filterRole: string): seq<User> {
    Seqs.Filter(all, u => Selected(u, filterEmail, filterName, filterRole))
  }

  /**
   * The filtered list is an order-preserving sub-list of the full list and holds exactly the
   * users that pass the filters.
   */
  lemma SelectionSpec(all: seq<User>, filterEmail: string, filterName: string, filterRole: string)
    ensures Seqs.IsSubsequence(Selection(all, filterEmail, filterName, filterRole), all)
    ensures forall u :: u in Selection(all, filterEmail, filterName, filterRole)
                        <==> u in all && Selected(u, filterEmail, filterName, filterRole)
  {
    Seqs.FilterIsSubsequence(all, u => Selected(u, filterEmail, filterName, filterRole));
  }

  /** With every filter empty, every user is kept in order. */
  lemma NoFiltersKeepAll(all: seq<User>)
    ensures Selection(all, "", "", "") == all
  {
    Seqs.FilterKeepsAll(all, u => Selected(u, "", "", ""));
  }

  /** Filtering the filtered list again changes nothing. */
  lemma SelectionIdempotent(all: seq<User>, filterEmail: string, filterName: string, filterRole: string)
    ensures var once := Selection(all, filterEmail, filterName, filterRole);
            Selection(once, filterEmail, filterName, filterRole) == once
  {
    Seqs.FilterIdempotent(all, u => Selected(u, filterEmail, filterName, filterRole));
  }

  /** A name filter differing only in letter case selects the same users. */
  lemma NameFilterIgnoresCase(all: seq<User>, filterName: string)
    ensures Selection(all, "", Text.ToLower(filterName), "") == Selection(all, "", filterName, "")
  {
    Text.ToLowerIdempotent(filterName);
    assert forall u :: Selected(u, "", Text.ToLower(filterName), "") == Selected(u, "", filterName, "");
    FilterSame(all, u => Selected(u, "", Text.ToLower(filterName), ""), u => Selected(u, "", filterName, ""));
  }

  lemma FilterSame<T>(s: seq<T>, f: T -> bool, g: T -> bool)
    requires forall x :: f(x) == g(x)
    ensures Seqs.Filter(s, f) == Seqs.Filter(s, g)
  {
    Seqs.FilterFuse(s, f, _ => true, g);
    Seqs.FilterKeepsAll(Seqs.Filter(s, f), _ => true);
  }

  /**
   * `applyFilters`' filtering steps: starting from the full list, each filter that is set narrows
   * the working list in turn (e-mail, then name, then role).
   */
  method FilterUsers(all: seq<User>, filterEmail: string, filterName: string, filterRole: string)
    returns (tempUsers: seq<User>)
    ensures tempUsers == Selection(all, filterEmail, filterName, filterRole)
  {
    tempUsers := all;
    if filterEmail != "" {
      tempUsers := Seqs.Filter(tempUsers, u => MatchesEmail(u, filterEmail));
    }
    EmailStage(all, filterEmail);
    if filterName != "" {
      var filterTerm := Text.ToLower(filterName);
      tempUsers := Seqs.Filter(tempUsers, u => MatchesName(u, filterTerm));
    }
    NameStage(all, filterEmail, filterName);
    if filterRole != "" {
      tempUsers := Seqs.Filter(tempUsers, u => MatchesRole(u, filterRole));
    }
    RoleStage(all, filterEmail, filterName, filterRole);
  }

  lemma EmailStage(all: seq<User>, filterEmail: string)
    ensures (if filterEmail != "" then Seqs.Filter(all, u => MatchesEmail(u, filterEmail)) else all)
            == Seqs.Filter(all, u => Selected(u, filterEmail, "", ""))
  {
    if filterEmail != "" {
      FilterSame(all, u => MatchesEmail(u, filterEmail), u => Selected(u, filterEmail, "", ""));
    } else {
      Seqs.FilterKeepsAll(all, u => Selected(u, filterEmail, "", ""));
    }
  }

  lemma NameStage(all: seq<User>, filterEmail: string, filterName: string)
    ensures var before := Seqs.Filter(all, u => Selected(u, filterEmail, "", ""));
            (if filterName != "" then Seqs.Filter(before, u => MatchesName(u, Text.ToLower(filterName))) else before)
            == Seqs.Filter(all, u => Selected(u, filterEmail, filterName, ""))
  {
    var stage1: User -> bool := u => Selected(u, filterEmail, "", "");
    if filterName != "" {
      var filterTerm := Text.ToLower(filterName);
      Seqs.FilterFuse(all, stage1, u => MatchesName(u, filterTerm), u => Selected(u, filterEmail, filterName, ""));
    } else {
      FilterSame(all, stage1, u => Selected(u, filterEmail, filterName, ""));
    }
  }

  lemma RoleStage(all: seq<User>, filterEmail: string, filterName: string, filterRole: string)
    ensures var before := Seqs.Filter(all, u => Selected(u, filterEmail, filterName, ""));
            (if filterRole != "" then Seqs.Filter(before, u => MatchesRole(u, filterRole)) else before)
            == Selection(all, filterEmail, filterName, filterRole)
  {
    var stage2: User -> bool := u => Selected(u, filterEmail, filterName, "");
    if filterRole != "" {
      Seqs.FilterFuse(all, stage2, u => MatchesRole(u, filterRole), u => Selected(u, filterEmail, filterName, filterRole));
    } else {
      FilterSame(all, stage2, u => Selected(u, filterEmail, filterName, filterRole));
    }
  }

  class UsersComponent {
    var users: seq<User>
    var allUsers: seq<User>
    var filteredUsers: seq<User>
    var loading: bool
    var errorMessage: Option<string>
    var totalUsers: nat
    var currentPage: nat
    var filterEmail: string
    var filterName: string
    var filterRole: string
    /** Notifications sent to the notification service, oldest first. */
    var notices: seq<Notification>

    ghost predicate Valid()
      reads this
    {
      currentPage >= 1
    }

    constructor()
      ensures Valid()
      ensures users == [] && allUsers == [] && filteredUsers == [] && totalUsers == 0 && currentPage == 1
      ensures loading && errorMessage == None && filterEmail == "" && filterName == "" && filterRole == ""
      ensures notices == []
    {
      users, allUsers, filteredUsers := [], [], [];
      loading, errorMessage := true, None;
      totalUsers, currentPage := 0, 1;
      filterEmail, filterName, filterRole := "", "", "";
      notices := [];
    }

    /** `getTotalPages` */
    function TotalPages(): (r: nat)
      reads this
      ensures r * ItemsPerPage >= totalUsers && (r > 0 ==> (r - 1) * ItemsPerPage < totalUsers)
    {
      Paging.PageCount(totalUsers, ItemsPerPage)
    }

    /** `getPagesArray` */
    function PagesArray(): (r: seq<int>)
      reads this
      ensures forall page :: page in r <==> 1 <= page <= TotalPages()
    {
      var n := TotalPages();
      forall page ensures page in Paging.PageNumbers(n) <==> 1 <= page <= n {
        Paging.PageNumbersAreValidPages(n, page);
      }
      Paging.PageNumbers(n)
    }

    /**
     * Recomputes the filtered list from the full list, one filter at a time, then cuts out the
     * current page; an empty page after loading is reported with an info notification.
     */
    method ApplyFilters()
      requires Valid()
      modifies this`filteredUsers, this`totalUsers, this`users, this`notices
      ensures filteredUsers == Selection(allUsers, filterEmail, filterName, filterRole)
      ensures totalUsers == |filteredUsers|
      ensures users == Paging.Page(filteredUsers, currentPage, ItemsPerPage)
      ensures notices == old(notices)
                + if users == [] && !loading && errorMessage.None?
                  then [InfoNote(NoMatchesText)] else []
    {
      var tempUsers := FilterUsers(allUsers, filterEmail, filterName, filterRole);
      filteredUsers := tempUsers;
      totalUsers := |filteredUsers|;
      var startIndex := (currentPage - 1) * ItemsPerPage;
      var endIndex := startIndex + ItemsPerPage;
      users := Paging.Slice(filteredUsers, startIndex, endIndex);
      if |users| == 0 && !loading && errorMessage.None? {
        notices := notices + [InfoNote(NoMatchesText)];
      }
    }

    /** `loadAllUsers` issues the request: loading starts and the error is cleared. */
    method LoadAllUsers()
      modifies this`loading, this`errorMessage
      ensures loading && errorMessage == None
    {
      loading := true;
      errorMessage := None;
    }

    /** The request's success: the list is stored, filtered and paged; an empty list is reported. */
    method OnUsersLoaded(list: seq<User>)
      requires Valid()
      modifies this`allUsers, this`loading, this`filteredUsers, this`totalUsers, this`users, this`notices
      ensures allUsers == list && !loading
      ensures filteredUsers == Selection(list, filterEmail, filterName, filterRole)
      ensures totalUsers == |filteredUsers|
      ensures users == Paging.Page(filteredUsers, currentPage, ItemsPerPage)
      ensures notices == old(notices)
                + (if users == [] && errorMessage.None? then [InfoNote(NoMatchesText)] else [])
                + (if list == [] then [InfoNote(NoUsersText)] else [])
    {
      allUsers := list;
      loading := false;
      ApplyFilters();
      if |allUsers| == 0 {
        notices := notices + [InfoNote(NoUsersText)];
      }
    }

    /** The request's failure. */
    method OnUsersLoadError()
      modifies this`notices, this`errorMessage, this`loading
      ensures notices == old(notices) + [ErrorNote(LoadFailedText)]
      ensures errorMessage == Some(LoadErrorText) && !loading
    {
      notices := notices + [ErrorNote(LoadFailedText)];
      errorMessage := Some(LoadErrorText);
      loading := false;
    }

    /** The debounced filter-change subscriber: back to page 1, then filter. */
    method OnFilterTextChanged()
      requires Valid()
      modifies this`currentPage, this`filteredUsers, this`totalUsers, this`users, this`notices
      ensures Valid() && currentPage == 1
      ensures filteredUsers == Selection(allUsers, filterEmail, filterName, filterRole)
      ensures totalUsers == |filteredUsers|
      ensures users == Paging.Page(filteredUsers, 1, ItemsPerPage)
      ensures notices == old(notices)
                + if users == [] && !loading && errorMessage.None?
                  then [InfoNote(NoMatchesText)] else []
    {
      currentPage := 1;
      ApplyFilters();
    }

    /** All three filters emptied and page 1 shown: the first ten users of the full list. */
    method ClearFilters()
      requires Valid()
      modifies this`filterEmail, this`filterName, this`filterRole, this`currentPage
      modifies this`filteredUsers, this`totalUsers, this`users, this`notices
      ensures Valid()
      ensures filterEmail == "" && filterName == "" && filterRole == "" && currentPage == 1
      ensures filteredUsers == allUsers && totalUsers == |allUsers|
      ensures users == Paging.Page(allUsers, 1, ItemsPerPage)
      ensures notices == old(notices)
                + (if users == [] && !loading && errorMessage.None? then [InfoNote(NoMatchesText)] else [])
                + [InfoNote(FiltersClearedText)]
    {
      filterEmail, filterName, filterRole := "", "", "";
      currentPage := 1;
      ApplyFilters();
      NoFiltersKeepAll(allUsers);
      notices := notices + [InfoNote(FiltersClearedText)];
    }

    /** Moves to `page` when it is between 1 and the page count; any other page changes nothing. */
    method OnPageChange(page: int)
      requires Valid()
      modifies this`currentPage, this`filteredUsers, this`totalUsers, this`users, this`notices
      ensures Valid()
      ensures !(1 <= page <= old(TotalPages())) ==> unchanged(this)
      ensures 1 <= page <= old(TotalPages()) ==>
                && currentPage == page
                && filteredUsers == Selection(allUsers, filterEmail, filterName, filterRole)
                && totalUsers == |filteredUsers|
                && users == Paging.Page(filteredUsers, page, ItemsPerPage)
                && notices == old(notices)
                   + if users == [] && !loading && errorMessage.None?
                     then [InfoNote(NoMatchesText)] else []
    {
      if page >= 1 && page <= TotalPages() {
        currentPage := page;
        ApplyFilters();
      }
    }
  }
}

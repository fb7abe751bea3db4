/** `MerchantSearchUsersPage`: a merchant looks up app users by a free-text term. */
module SearchUsers {
  import opened Wrappers
  import opened Text
  import opened Seqs

  datatype AppUser = AppUser(
    id: string,
    name: string,
    email: string,
    phone: string,
    isActive: bool,
    cashbackBalance: real,
    totalEarned: real,
    referralCode: string,
    joinedAt: string,
    lastLogin: string,
    isCustomer: bool,
    totalPurchases: Option<real>)

  /** The four users the page searches. */
  const MockUsers: seq<AppUser> := [
    AppUser("1", "Maria Silva", "maria@email.com", "(11) 99999-9999", true, 125.50, 1250.00,
            "MARIA2025", "2024-01-01", "2024-01-20", true, Some(1250.50)),
    AppUser("2", "João Santos", "joao@email.com", "(11) 88888-8888", true, 89.30, 893.00,
            "JOAO2025", "2024-01-05", "2024-01-18", true, Some(890.30)),
    AppUser("3", "Ana Costa", "ana@email.com", "(11) 77777-7777", false, 0.0, 0.0,
            "ANA2025", "2024-01-10", "2024-01-15", false, Some(0.0)),
    AppUser("4", "Pedro Oliveira", "pedro@email.com", "(11) 66666-6666", true, 45.20, 452.00,
            "PEDRO2025", "2024-01-12", "2024-01-19", true, Some(450.20))
  ]

  /** Name, email or referral code contains the term ignoring case, or the phone contains it as typed. */
  predicate UserMatches(u: AppUser, searchTerm: string) {
    IncludesIgnoringCase(u.name, searchTerm) || IncludesIgnoringCase(u.email, searchTerm)
    || Includes(u.phone, searchTerm) || IncludesIgnoringCase(u.referralCode, searchTerm)
  }

  /** `mockUsers.filter(...)`: the matching users, in their order. */
  function SearchResults(users: seq<AppUser>, searchTerm: string): (r: seq<AppUser>)
    ensures IsSubsequence(r, users)
    ensures forall u :: u in r <==> u in users && UserMatches(u, searchTerm)
  {
    var keep := (u: AppUser) => UserMatches(u, searchTerm);
    FilterIsSubsequence(users, keep);
    forall u ensures u in Filter(users, keep) <==> u in users && keep(u) {
      FilterMembership(users, keep, u);
    }
    Filter(users, keep)
  }

  /** `disabled={isSearching || !searchTerm.trim()}` */
  function SearchDisabled(isSearching: bool, searchTerm: string): (disabled: bool)
    ensures disabled <==> isSearching || IsBlank(searchTerm)
  {
    TrimEmptyIffBlank(searchTerm);
    isSearching || Trim(searchTerm) == ""
  }

  class SearchUsersPage {
    /** The users the page searches: `mockUsers`. */
    const users: seq<AppUser>
    var searchTerm: string
    var searchResults: seq<AppUser>
    var isSearching: bool
    var hasSearched: bool

    constructor ()
      ensures users == MockUsers
      ensures searchTerm == "" && searchResults == [] && !isSearching && !hasSearched
    {
      users := MockUsers;
      searchTerm, searchResults, isSearching, hasSearched := "", [], false, false;
    }

    /** The input's `onChange`. */
    method SetSearchTerm(term: string)
      modifies this
      ensures searchTerm == term
      ensures searchResults == old(searchResults) && isSearching == old(isSearching) && hasSearched == old(hasSearched)
    {
      searchTerm := term;
    }

    /** `handleSearch`: a blank term changes nothing; otherwise the untrimmed term is matched
        against every user and the page records that a search happened. */
    method HandleSearch()
      modifies this
      ensures searchTerm == old(searchTerm)
      ensures IsBlank(searchTerm) ==>
                searchResults == old(searchResults) && isSearching == old(isSearching) && hasSearched == old(hasSearched)
      ensures !IsBlank(searchTerm) ==>
                searchResults == SearchResults(users, searchTerm) && hasSearched && !isSearching
    {
      TrimEmptyIffBlank(searchTerm);
      if Trim(searchTerm) == "" {
        return;
      }
      isSearching := true;
      hasSearched := true;
      var results := SearchResults(users, searchTerm);
      searchResults := results;
      isSearching := false;
    }
  }

  /** Two searches in a row: the list shown holds only mock users, in their order; the later
      non-blank term wins; and once a search has happened the page never forgets it. */
  method SearchTwice(page: SearchUsersPage, first: string, second: string)
    modifies page
    requires IsSubsequence(page.searchResults, page.users)
    ensures IsSubsequence(page.searchResults, page.users)
    ensures !IsBlank(second) ==> page.searchResults == SearchResults(page.users, second)
    ensures old(page.hasSearched) ==> page.hasSearched
  {
    page.SetSearchTerm(first);
    page.HandleSearch();
    page.SetSearchTerm(second);
    page.HandleSearch();
  }
}

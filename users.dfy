/** The user management page: the user list filtered by a status select and a search box whose name and
    e-mail parts ignore case while the phone part does not. */
module Users {
  import opened Text
  import opened Records

  datatype UserStatus = Active | Inactive | Banned {
    function Label(): string {
      match this
      case Active => "Active"
      case Inactive => "Inactive"
      case Banned => "Banned"
    }
  }

  /** The fields of a user that the page filters on. */
  datatype User = User(id: string, name: string, email: string, phone: string, status: UserStatus)

  /** The status select (a string) and the search box; this page has no tab bar. */
  datatype UserQuery = UserQuery(statusFilter: string, searchTerm: string)

  const Unfiltered: UserQuery := UserQuery("All", "")

  const usersData: seq<User> := [
    User("1", "John Smith", "john@email.com", "+1 234 567 8900", Active),
    User("2", "Emma Davis", "emma@email.com", "+1 234 567 8901", Active),
    User("3", "Mike Johnson", "mike@email.com", "+1 234 567 8902", Active),
    User("4", "Lisa Wang", "lisa@email.com", "+1 234 567 8903", Active),
    User("5", "Alex Chen", "alex@email.com", "+1 234 567 8904", Inactive),
    User("6", "Sarah Kim", "sarah@email.com", "+1 234 567 8905", Banned),
    User("7", "Tom Wilson", "tom@email.com", "+1 234 567 8906", Active),
    User("8", "Nina Rodriguez", "nina@email.com", "+1 234 567 8907", Active)
  ]

  /** Case-insensitive search over the name and the e-mail; the phone is searched for the term as typed. */
  predicate MatchesSearch(u: User, term: string) {
    MatchesText(u.name, term) || MatchesText(u.email, term) || Contains(u.phone, term)
  }

  predicate MatchesUser(u: User, q: UserQuery) {
    Selects(q.statusFilter, u.status.Label()) && MatchesSearch(u, q.searchTerm)
  }

  /** `filteredUsers`, applied by the page to `usersData`. */
  function FilteredUsers(data: seq<User>, q: UserQuery): seq<User> {
    Keep(data, (u: User) => MatchesUser(u, q))
  }

  /** The visible list is an order-preserving subsequence of the data, holding exactly the users that match. */
  lemma FilteredUsersSelects(data: seq<User>, q: UserQuery)
    ensures SubsequenceOf(FilteredUsers(data, q), data)
    ensures forall i :: 0 <= i < |FilteredUsers(data, q)| ==> MatchesUser(FilteredUsers(data, q)[i], q)
    ensures forall i :: 0 <= i < |data| ==> (MatchesUser(data[i], q) <==> data[i] in FilteredUsers(data, q))
  {
    var p := (u: User) => MatchesUser(u, q);
    KeepSubsequence(data, p);
    KeepSound(data, p);
    KeepComplete(data, p);
    var k := FilteredUsers(data, q);
    forall i | 0 <= i < |data| && data[i] in k ensures MatchesUser(data[i], q) {
      var j :| 0 <= j < |k| && k[j] == data[i];
    }
  }

  /** An empty search term matches every user, so with the status on "All" every user is visible. */
  lemma FilteredUsersUnfiltered(data: seq<User>)
    ensures FilteredUsers(data, Unfiltered) == data
  {
    forall u | u in data ensures MatchesUser(u, Unfiltered) {
      MatchesTextEmpty(u.name);
    }
    KeepAllPass(data, (u: User) => MatchesUser(u, Unfiltered));
  }

  /** Filtering the visible list again changes nothing. */
  lemma FilteredUsersIdempotent(data: seq<User>, q: UserQuery)
    ensures FilteredUsers(FilteredUsers(data, q), q) == FilteredUsers(data, q)
  {
    KeepIdempotent(data, (u: User) => MatchesUser(u, q));
  }

  /** A status selection other than "All" is exact equality on the status. */
  lemma FilteredUsersByStatus(data: seq<User>, q: UserQuery, s: UserStatus)
    requires q.statusFilter == s.Label()
    ensures forall i :: 0 <= i < |FilteredUsers(data, q)| ==> FilteredUsers(data, q)[i].status == s
  {
    KeepSound(data, (u: User) => MatchesUser(u, q));
  }

  /** Changing only the case of the term keeps every match on a name or an e-mail; the phone is the one
      field where the two terms can disagree, so the lists coincide exactly when the phone matches agree. */
  lemma FilteredUsersCaseInsensitive(data: seq<User>, q: UserQuery, term: string)
    requires Lower(term) == Lower(q.searchTerm)
    requires forall u | u in data :: Contains(u.phone, term) == Contains(u.phone, q.searchTerm)
    ensures FilteredUsers(data, q.(searchTerm := term)) == FilteredUsers(data, q)
  {
    var q' := q.(searchTerm := term);
    forall u | u in data ensures MatchesUser(u, q') == MatchesUser(u, q) {
      MatchesTextCaseInsensitive(u.name, term, q.searchTerm);
      MatchesTextCaseInsensitive(u.email, term, q.searchTerm);
    }
    KeepAgree(data, (u: User) => MatchesUser(u, q'), (u: User) => MatchesUser(u, q));
  }

  /** The phone search is case-sensitive: an upper-case letter that occurs in the phone, but in neither case
      in the name or the e-mail and not in lower case in the phone, is found as typed and missed once lower-cased. */
  lemma PhoneSearchIsCaseSensitive(u: User, c: char)
    requires IsUpper(c) && c in u.phone && LowerChar(c) !in u.phone
    requires c !in u.name && LowerChar(c) !in u.name && c !in u.email && LowerChar(c) !in u.email
    ensures MatchesSearch(u, [c]) && !MatchesSearch(u, [LowerChar(c)])
  {
    var i :| 0 <= i < |u.phone| && u.phone[i] == c;
    assert OccursAt(u.phone, [c], i);
    ContainsIff(u.phone, [c]);
    var l := LowerChar(c);
    assert Lower([l]) == [l];
    NoMatchWithoutLetter(u.name, [l], l);
    NoMatchWithoutLetter(u.email, [l], l);
    if Contains(u.phone, [l]) {
      ContainsChar(u.phone, [l], l);
    }
  }
}

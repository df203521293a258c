/** The booking management page: the booking list filtered by tab, room type, status and search,
    and the customer initials shown in the avatar. The detail modal is `Modal.DetailModal<Booking>`. */
module Bookings {
  import opened Text
  import opened Records

  datatype RoomType = PS4 | PS5 | VIP {
    function Label(): string {
      match this
      case PS4 => "PS4"
      case PS5 => "PS5"
      case VIP => "VIP"
    }
  }

  datatype BookingStatus = Upcoming | Active | Completed | Cancelled | Missed {
    function Label(): string {
      match this
      case Upcoming => "Upcoming"
      case Active => "Active"
      case Completed => "Completed"
      case Cancelled => "Cancelled"
      case Missed => "Missed"
    }
  }

  /** The fields of a booking that the page filters on; the rest (times, price, contact) are display only. */
  datatype Booking = Booking(bookingId: string, customerName: string, roomType: RoomType, status: BookingStatus)

  /** The tab bar offers "All", "Upcoming", "Completed" and "Cancelled"; there is no tab for Active or Missed. */
  type BookingTab = t: Tab<BookingStatus> | t.AllTab? || t.value in {Upcoming, Completed, Cancelled}
    witness AllTab

  /** The page's filter state: the tab, the two selects (held as strings) and the search box. */
  datatype BookingQuery = BookingQuery(activeTab: BookingTab, roomTypeFilter: string, statusFilter: string, searchTerm: string)

  /** The state the page starts in. */
  const Unfiltered: BookingQuery := BookingQuery(AllTab, "All", "All", "")

  const bookingsData: seq<Booking> := [
    Booking("BK001", "John Smith", PS5, Active),
    Booking("BK002", "Emma Davis", PS4, Upcoming),
    Booking("BK003", "Mike Johnson", VIP, Upcoming),
    Booking("BK004", "Lisa Wang", PS5, Completed),
    Booking("BK005", "Alex Chen", PS4, Cancelled),
    Booking("BK006", "Sarah Kim", VIP, Missed),
    Booking("BK007", "Tom Wilson", PS5, Upcoming),
    Booking("BK008", "Nina Rodriguez", PS4, Upcoming)
  ]

  /** Case-insensitive search over the booking id or the customer name. */
  predicate MatchesSearch(b: Booking, term: string) {
    MatchesText(b.bookingId, term) || MatchesText(b.customerName, term)
  }

  predicate MatchesBooking(b: Booking, q: BookingQuery) {
    && OnTab(q.activeTab, b.status)
    && Selects(q.roomTypeFilter, b.roomType.Label())
    && Selects(q.statusFilter, b.status.Label())
    && MatchesSearch(b, q.searchTerm)
  }

  /** `filteredBookings`, applied by the page to `bookingsData`. */
  function FilteredBookings(data: seq<Booking>, q: BookingQuery): seq<Booking> {
    Keep(data, (b: Booking) => MatchesBooking(b, q))
  }

  /** The visible list is an order-preserving subsequence of the data, holding exactly the bookings that match. */
  lemma FilteredBookingsSelects(data: seq<Booking>, q: BookingQuery)
    ensures SubsequenceOf(FilteredBookings(data, q), data)
    ensures forall i :: 0 <= i < |FilteredBookings(data, q)| ==> MatchesBooking(FilteredBookings(data, q)[i], q)
    ensures forall i :: 0 <= i < |data| ==> (MatchesBooking(data[i], q) <==> data[i] in FilteredBookings(data, q))
  {
    var p := (b: Booking) => MatchesBooking(b, q);
    KeepSubsequence(data, p);
    KeepSound(data, p);
    KeepComplete(data, p);
    var r := FilteredBookings(data, q);
    forall i | 0 <= i < |data| && data[i] in r ensures MatchesBooking(data[i], q) {
      var j :| 0 <= j < |r| && r[j] == data[i];
    }
  }

  /** With every filter on "All" and an empty search, every booking is visible. */
  lemma FilteredBookingsUnfiltered(data: seq<Booking>)
    ensures FilteredBookings(data, Unfiltered) == data
  {
    forall b | b in data ensures MatchesBooking(b, Unfiltered) {
      MatchesTextEmpty(b.bookingId);
    }
    KeepAllPass(data, (b: Booking) => MatchesBooking(b, Unfiltered));
  }

  /** Filtering the visible list again changes nothing. */
  lemma FilteredBookingsIdempotent(data: seq<Booking>, q: BookingQuery)
    ensures FilteredBookings(FilteredBookings(data, q), q) == FilteredBookings(data, q)
  {
    KeepIdempotent(data, (b: Booking) => MatchesBooking(b, q));
  }

  /** Two search terms that lower-case alike select the same bookings. */
  lemma FilteredBookingsCaseInsensitive(data: seq<Booking>, q: BookingQuery, term: string)
    requires Lower(term) == Lower(q.searchTerm)
    ensures FilteredBookings(data, q.(searchTerm := term)) == FilteredBookings(data, q)
  {
    var q' := q.(searchTerm := term);
    forall b | b in data ensures MatchesBooking(b, q') == MatchesBooking(b, q) {
      MatchesTextCaseInsensitive(b.bookingId, term, q.searchTerm);
      MatchesTextCaseInsensitive(b.customerName, term, q.searchTerm);
    }
    KeepAgree(data, (b: Booking) => MatchesBooking(b, q'), (b: Booking) => MatchesBooking(b, q));
  }

  /** A status tab together with a different non-"All" status selection shows nothing. */
  lemma FilteredBookingsConflict(data: seq<Booking>, q: BookingQuery)
    requires q.activeTab.TabOf? && q.statusFilter != "All" && q.statusFilter != q.activeTab.value.Label()
    ensures FilteredBookings(data, q) == []
  {
    KeepNonePass(data, (b: Booking) => MatchesBooking(b, q));
  }

  /** A status tab is exact equality on the status, so Active and Missed bookings show only under "All". */
  lemma FilteredBookingsTabExact(data: seq<Booking>, q: BookingQuery)
    requires q.activeTab.TabOf?
    ensures forall i :: 0 <= i < |FilteredBookings(data, q)| ==>
      FilteredBookings(data, q)[i].status == q.activeTab.value &&
      FilteredBookings(data, q)[i].status !in {Active, Missed}
  {
    KeepSound(data, (b: Booking) => MatchesBooking(b, q));
  }

  /** The "Cancelled" tab shows BK005 alone; the Missed booking BK006 is not included. */
  lemma CancelledTabShowsBk005()
    ensures FilteredBookings(bookingsData, Unfiltered.(activeTab := TabOf(Cancelled))) == [bookingsData[4]]
  {
    var q := Unfiltered.(activeTab := TabOf(Cancelled));
    MatchesTextEmpty(bookingsData[4].bookingId);
    KeepExactlyOne(bookingsData, (b: Booking) => MatchesBooking(b, q), 4);
  }

  /** BK001 matches the search "bk001" through its id. */
  lemma Bk001MatchesItsId(term: string)
    requires Lower(term) == Lower("BK001")
    ensures MatchesBooking(bookingsData[0], Unfiltered.(searchTerm := term))
  {
    MatchesSelf("BK001", term);
  }

  /** The digit 1 occurs in neither the id nor the name of the booking. */
  predicate LacksDigitOne(b: Booking) {
    '1' !in b.bookingId && '1' !in b.customerName
  }

  lemma EarlyBookingsLackDigitOne()
    ensures LacksDigitOne(bookingsData[1]) && LacksDigitOne(bookingsData[2]) && LacksDigitOne(bookingsData[3])
  {
  }

  lemma LateBookingsLackDigitOne()
    ensures LacksDigitOne(bookingsData[4]) && LacksDigitOne(bookingsData[5])
    ensures LacksDigitOne(bookingsData[6]) && LacksDigitOne(bookingsData[7])
  {
  }

  /** No booking but BK001 holds the digit 1 in its id or name, so none matches a term holding a '1'. */
  lemma OnlyBk001HasOne(j: int, term: string)
    requires 1 <= j < |bookingsData| && '1' in term
    ensures !MatchesBooking(bookingsData[j], Unfiltered.(searchTerm := term))
  {
    EarlyBookingsLackDigitOne();
    LateBookingsLackDigitOne();
    NoMatchWithout(bookingsData[j].bookingId, term, '1');
    NoMatchWithout(bookingsData[j].customerName, term, '1');
  }

  /** Searching "bk001" or "BK001" shows exactly BK001. */
  lemma SearchBk001(term: string)
    requires term == "bk001" || term == "BK001"
    ensures FilteredBookings(bookingsData, Unfiltered.(searchTerm := term)) == [bookingsData[0]]
  {
    var q := Unfiltered.(searchTerm := term);
    assert Lower(term) == Lower("BK001");
    assert '1' in term by { assert term[4] == '1'; }
    Bk001MatchesItsId(term);
    forall j | 1 <= j < |bookingsData| ensures !MatchesBooking(bookingsData[j], q) {
      OnlyBk001HasOne(j, term);
    }
    KeepExactlyOne(bookingsData, (b: Booking) => MatchesBooking(b, q), 0);
  }

  /** `.map((n) => n[0]).join("")`: the first character of each word; an empty word contributes
      `undefined`, which `join` renders as nothing. */
  function FirstLetters(words: seq<string>): string {
    if |words| == 0 then ""
    else (if |words[0]| > 0 then [words[0][0]] else "") + FirstLetters(words[1..])
  }

  /** The avatar initials of a customer name. */
  function Initials(name: string): string {
    FirstLetters(Split(name, ' '))
  }

  lemma {:induction false} FirstLettersAppend(a: seq<string>, b: seq<string>)
    ensures FirstLetters(a + b) == FirstLetters(a) + FirstLetters(b)
    decreases |a|
  {
    if |a| > 0 {
      assert (a + b)[1..] == a[1..] + b;
      FirstLettersAppend(a[1..], b);
    } else {
      assert a + b == b;
    }
  }

  /** The initials of two space-separated parts are the initials of each part, in order. */
  lemma InitialsAppend(a: string, b: string)
    ensures Initials(a + " " + b) == Initials(a) + Initials(b)
  {
    assert a + " " + b == a + [' '] + b;
    SplitAppend(a, b, ' ');
    FirstLettersAppend(Split(a, ' '), Split(b, ' '));
  }

  /** A single non-empty word contributes its first character. */
  lemma InitialsWord(w: string)
    requires |w| > 0 && ' ' !in w
    ensures Initials(w) == [w[0]]
  {
    SplitWord(w, ' ');
    assert [w][1..] == [];
    assert FirstLetters([w]) == [w[0]] + FirstLetters([]);
  }

  /** Every initial is a non-space character of the name, and there is at most one per word. */
  lemma {:induction false} FirstLettersFromWords(words: seq<string>)
    ensures |FirstLetters(words)| <= |words|
    ensures forall i :: 0 <= i < |FirstLetters(words)| ==> exists k :: 0 <= k < |words| && |words[k]| > 0 && FirstLetters(words)[i] == words[k][0]
    decreases |words|
  {
    if |words| > 0 {
      FirstLettersFromWords(words[1..]);
      var f := FirstLetters(words);
      var rest := FirstLetters(words[1..]);
      var d := if |words[0]| > 0 then 1 else 0;
      assert f == (if |words[0]| > 0 then [words[0][0]] else "") + rest;
      assert |f| == d + |rest|;
      forall i | 0 <= i < |f| ensures exists k :: 0 <= k < |words| && |words[k]| > 0 && f[i] == words[k][0] {
        if i < d {
          assert f[i] == words[0][0];
        } else {
          assert f[i] == rest[i - d];
          var k :| 0 <= k < |words[1..]| && |words[1..][k]| > 0 && rest[i - d] == words[1..][k][0];
          assert words[k + 1] == words[1..][k];
        }
      }
    }
  }

  /** A first name and a surname give two initials. */
  lemma InitialsTwoWords(first: string, last: string)
    requires |first| > 0 && |last| > 0 && ' ' !in first && ' ' !in last
    ensures Initials(first + " " + last) == [first[0], last[0]]
  {
    InitialsAppend(first, last);
    InitialsWord(first);
    InitialsWord(last);
  }

  /** "John Smith" is shown as "JS". */
  lemma InitialsJohnSmith()
    ensures Initials("John Smith") == "JS"
  {
    var first, last := "John", "Smith";
    assert "John Smith" == first + " " + last;
    InitialsTwoWords(first, last);
  }
}

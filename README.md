# Cosmic Rent admin UI — a Dafny model of its page logic

Cosmic Rent's admin interface manages a PlayStation rental business: rental units, bookings, rooms,
consoles, controllers, TVs, food and users. All of its data is held in constant in-memory arrays. The
logic beyond rendering falls into five groups, and this project models each of them:

1. **Record filters.** Every management page filters its constant array by AND-ing four tests: a tab, an
   exact-match select where "All" matches everything, a status select, and a case-insensitive
   substring search over a few text fields. The model has one generic `Keep`/`Count` pair (module
   `Records`) and one text module (`Text`: ASCII lower-casing and substring search). Each page has a
   record datatype and closed enums; selects held as strings in the source stay `string` here.
2. **Tab/status handlers.** The handlers that keep a page's tab in step with its status select are
   modelled as classes whose methods update the filter state in place (`Rooms.RoomFilters`,
   `Consoles.ConsoleFilters`, `Foods.FoodFilters`). The selected-record/open-modal pair that every
   page shares is one generic class, `Modal.DetailModal`.
3. **Stat cards.** The counts behind the stat cards are counts over the data. The model proves that
   the cards partition or are disjoint. It also checks the hard-coded "x/N units" denominators
   against the constant data.
4. **Pagination.** `Paging` holds the page count `ceil(n/k)`, the start index `(p-1)*k`, the
   JavaScript `slice` semantics and the "showing a to b of n" range. These are used by:
   - the dashboard panels (`RoomPanel`, `Upcoming`);
   - the `Pagination` and `TableUi` components (`PageControls`);
   - the self-paginating table, `PagedTables.PagedTable`, a class whose prev/next methods keep the
     current page in range.
5. **Layout shell.** `Layout` holds the route-to-title lookup and the `LayoutShell` class. The class's
   resize, scroll and toggle handlers take the window width or scroll offset as a parameter.

Source paths below are relative to the repository root.

## Model

| member | source | states |
|---|---|---|
| Text.Lower | src/app/admin/booking/page.tsx:217-218 | ASCII `toLowerCase`: same length, no upper-case letter left, and a string without upper-case letters is unchanged |
| Text.LowerIdempotent | src/app/admin/booking/page.tsx:217-218 | lower-casing twice is lower-casing once |
| Text.ContainsIff | src/app/admin/booking/page.tsx:217-218 | `includes` holds iff the needle occurs at some offset of the haystack |
| Text.ContainsEmpty | src/app/admin/users/page.tsx:177-180 | every string includes the empty string |
| Text.MatchesTextCaseInsensitive | src/app/admin/booking/page.tsx:217-218 | two terms that lower-case alike match the same fields |
| Text.MatchesTextEmpty | src/app/admin/booking/page.tsx:216-218 | the empty search term matches every field |
| Text.Split | src/app/admin/booking/page.tsx:360-361 | `split(" ")`: at least one part, and no part holds the separator |
| Text.SplitJoin | src/app/admin/booking/page.tsx:360-361 | joining the parts of `split(" ")` with spaces gives back the string |
| Text.NoMatchWithoutLetter | src/app/admin/booking/page.tsx:217-218 | a field that lacks a letter of the term in both cases does not match it |
| Records.Keep | src/app/admin/booking/page.tsx:210-220 | `filter` keeps no more elements than it is given |
| Records.KeepSound | src/app/admin/booking/page.tsx:210-220 | every kept element satisfies the predicate |
| Records.KeepComplete | src/app/admin/booking/page.tsx:210-220 | every element that satisfies the predicate is kept |
| Records.KeepSubsequence | src/app/admin/booking/page.tsx:210-220 | the result is an order-preserving subsequence of the input |
| Records.KeepIdempotent | src/app/admin/booking/page.tsx:210-220 | filtering the result again with the same predicate changes nothing |
| Records.KeepAllPass | src/app/admin/booking/page.tsx:210-220 | when every element satisfies the predicate, the filter returns its input |
| Records.KeepNonePass | src/app/admin/booking/page.tsx:210-220 | when no element satisfies the predicate, the result is empty |
| Records.KeepAgree | src/app/admin/booking/page.tsx:210-220 | predicates that agree on the input give the same result |
| Records.CountIsFilterLength | src/app/admin/tv/page.tsx:273-278 | a count is the length of the matching filter |
| Records.CountDisjointWithin | src/app/admin/console/page.tsx:270-285 | two disjoint predicates inside a third count at most the third's count together |
| Records.CountDisjoint3 | src/app/admin/rent/page.tsx:158-166 | three pairwise disjoint predicates count at most the length together |
| Records.CountPartition3 | src/app/admin/tv/page.tsx:273-278 | three predicates that partition the elements count exactly the length together |
| Records.CountMonotone | src/app/admin/rent/page.tsx:158-166 | a predicate implied by another counts at least as many elements |
| Records.CountPermutation | src/components/admin/rent/StatsOverview.tsx:18-26 | counts depend only on the multiset of elements, not on their order |
| Modal.DetailModal.constructor | src/app/admin/booking/page.tsx:222-230 | the page starts with no selection and the modal closed, so nothing renders |
| Modal.DetailModal.ViewDetails | src/app/admin/booking/page.tsx:222-225 | the record becomes the selection, the modal opens and it renders |
| Modal.DetailModal.Close | src/app/admin/booking/page.tsx:227-230 | the selection is cleared and the modal is closed, so nothing renders |
| Modal.DetailModal.Shown | src/app/admin/booking/page.tsx:517 | a record is shown iff the modal is open and one is selected, and it is the selected one |
| Modal.ValidRendersWhenOpen | src/app/admin/booking/page.tsx:517 | in a state the page can reach, the modal renders exactly when its flag is set, showing the selected record |
| Bookings.FilteredBookingsSelects | src/app/admin/booking/page.tsx:210-220 | the visible bookings are an order-preserving subsequence of the data, and a booking is visible iff it matches |
| Bookings.FilteredBookingsUnfiltered | src/app/admin/booking/page.tsx:210-219 | all filters on "All" with an empty search show every booking |
| Bookings.FilteredBookingsIdempotent | src/app/admin/booking/page.tsx:210-220 | filtering the visible list again changes nothing |
| Bookings.FilteredBookingsCaseInsensitive | src/app/admin/booking/page.tsx:216-218 | search terms that lower-case alike show the same bookings |
| Bookings.FilteredBookingsConflict | src/app/admin/booking/page.tsx:211-215 | a status tab and a different non-"All" status select show nothing |
| Bookings.FilteredBookingsTabExact | src/app/admin/booking/page.tsx:211 | a status tab shows only bookings with exactly that status |
| Bookings.CancelledTabShowsBk005 | src/app/admin/booking/page.tsx:158-160 | the "Cancelled" tab shows BK005 alone, and not the Missed booking BK006 |
| Bookings.Bk001MatchesItsId | src/app/admin/booking/page.tsx:216-218 | BK001 matches any term that lower-cases to "bk001" |
| Bookings.OnlyBk001HasOne | src/app/admin/booking/page.tsx:34-155 | no booking other than BK001 matches a search term holding the digit 1 |
| Bookings.SearchBk001 | src/app/admin/booking/page.tsx:216-218 | searching "bk001" or "BK001" shows exactly BK001 |
| Bookings.FirstLettersAppend | src/app/admin/booking/page.tsx:362-363 | the first letters of two word lists concatenate |
| Bookings.InitialsAppend | src/app/admin/booking/page.tsx:360-363 | the initials of "a b" are the initials of a followed by those of b |
| Bookings.InitialsWord | src/app/admin/booking/page.tsx:360-363 | one non-empty word gives its first character |
| Bookings.FirstLettersFromWords | src/app/admin/booking/page.tsx:362-363 | at most one initial per word, each the first character of a non-empty word |
| Bookings.InitialsTwoWords | src/app/admin/booking/page.tsx:360-363 | a first name and a surname give their two first characters |
| Bookings.InitialsJohnSmith | src/app/admin/booking/page.tsx:360-363 | "John Smith" gives "JS" |
| Rooms.TabForStatus | src/app/admin/room/page.tsx:179-194 | a known status selects its own tab; "All" and every other string select "All" |
| Rooms.RoomFilters.constructor | src/app/admin/room/page.tsx:20-34 | the page starts with every filter on "All" and an empty search |
| Rooms.RoomFilters.ChangeStatusFilter | src/app/admin/room/page.tsx:175-195 | the status select takes the value and the tab follows it; the other filters are unchanged |
| Rooms.RoomFilters.ClickTab | src/app/admin/room/page.tsx:302 | a tab click changes only the tab |
| Rooms.FilteredRoomsSelects | src/app/admin/room/page.tsx:236-255 | the visible rooms are an order-preserving subsequence of the data, and a room is visible iff it matches |
| Rooms.FilteredRoomsUnfiltered | src/app/admin/room/page.tsx:236-255 | all filters on "All" with an empty search show every room |
| Rooms.FilteredRoomsIdempotent | src/app/admin/room/page.tsx:236-255 | filtering the visible list again changes nothing |
| Rooms.FilteredRoomsCaseInsensitive | src/app/admin/room/page.tsx:249-253 | search terms that lower-case alike show the same rooms |
| Rooms.FilteredRoomsConflict | src/app/admin/room/page.tsx:239-248 | a tab that disagrees with a non-"All" status select shows nothing |
| Rooms.StatusChangeAgrees | src/app/admin/room/page.tsx:175-195 | after a status select change the list equals the one given by the status select alone |
| Rooms.FilteredRoomsByType | src/app/admin/room/page.tsx:245-246 | a room-type selection shows only rooms of exactly that type |
| Rooms.SearchDavisFindsItsRoom | src/app/admin/room/page.tsx:249-253 | searching "Davis" shows PS5-002, whose current user is Emma Davis |
| Consoles.ConsoleFilters.constructor | src/app/admin/console/page.tsx:19-31 | the page starts on tab "All", status "All" and an empty search |
| Consoles.ConsoleFilters.ChangeStatusFilter | src/app/admin/console/page.tsx:174-186 | the status select takes the value; "All" also resets the tab, any other value keeps it |
| Consoles.ConsoleFilters.ClickTab | src/app/admin/console/page.tsx:154 | a tab click changes only the tab |
| Consoles.FilteredConsolesSelects | src/app/admin/console/page.tsx:233-249 | the visible consoles are an order-preserving subsequence of the data, and a console is visible iff it matches |
| Consoles.FilteredConsolesUnfiltered | src/app/admin/console/page.tsx:233-249 | tab and status on "All" with an empty search show every console |
| Consoles.FilteredConsolesIdempotent | src/app/admin/console/page.tsx:233-249 | filtering the visible list again changes nothing |
| Consoles.FilteredConsolesCaseInsensitive | src/app/admin/console/page.tsx:244-247 | search terms that lower-case alike show the same consoles |
| Consoles.FilteredConsolesTabExact | src/app/admin/console/page.tsx:233-240 | a platform tab shows only consoles of exactly that platform |
| Consoles.OnlySearchLeft | src/app/admin/console/page.tsx:174-186 | with tab and status on "All", the list is the search result alone |
| Consoles.ConsoleStatsDisjoint | src/app/admin/console/page.tsx:270-285 | per platform, the available and maintenance cards count disjoint consoles of that platform; the platforms cover all consoles |
| Consoles.PlatformsPartition | src/app/admin/console/page.tsx:270-285 | the PS4 and PS5 counts add up to the number of consoles |
| Consoles.ConsoleDenominators | src/app/admin/console/page.tsx:298-306 | the "/5" and "/4" denominators equal the PS4 and PS5 console counts |
| Controllers.FilteredControllersSelects | src/app/admin/controller/page.tsx:274-286 | the visible controllers are an order-preserving subsequence of the data, and a controller is visible iff it matches |
| Controllers.FilteredControllersUnfiltered | src/app/admin/controller/page.tsx:274-286 | status "All" with an empty search shows every controller |
| Controllers.FilteredControllersIdempotent | src/app/admin/controller/page.tsx:274-286 | filtering the visible list again changes nothing |
| Controllers.FilteredControllersCaseInsensitive | src/app/admin/controller/page.tsx:277-284 | search terms that lower-case alike show the same controllers |
| Controllers.FilteredControllersByStatus | src/app/admin/controller/page.tsx:275-276 | a status selection shows only controllers with exactly that status |
| Controllers.BatteryColor | src/app/admin/controller/page.tsx:267-272 | on a real-valued level, 80 and above is emerald, 50 up to 80 yellow, 20 up to 50 orange, below 20 red, each as an iff |
| Controllers.ShownBattery | src/app/admin/controller/page.tsx:522 | `batteryLevel \|\| 0` shows a present real level as is and a missing one as 0 |
| Controllers.BatteryMonotone | src/app/admin/controller/page.tsx:267-272 | a higher level never gets a worse band |
| Controllers.MissingBatteryIsRed | src/app/admin/controller/page.tsx:522 | a controller without a reading is shown red |
| Controllers.ControllerStatsDisjoint | src/app/admin/controller/page.tsx:307-324 | per platform, the available and maintenance cards count disjoint controllers of that platform |
| Controllers.ControllerDenominators | src/app/admin/controller/page.tsx:337-345 | the "/7" and "/5" denominators equal the PS4 and PS5 controller counts |
| Tvs.FilteredTvsSelects | src/app/admin/tv/page.tsx:244-252 | the visible TVs are an order-preserving subsequence of the data, and a TV is visible iff it matches |
| Tvs.FilteredTvsUnfiltered | src/app/admin/tv/page.tsx:244-252 | status "All" with an empty search shows every TV |
| Tvs.FilteredTvsIdempotent | src/app/admin/tv/page.tsx:244-252 | filtering the visible list again changes nothing |
| Tvs.FilteredTvsCaseInsensitive | src/app/admin/tv/page.tsx:246-250 | search terms that lower-case alike show the same TVs |
| Tvs.FilteredTvsByStatus | src/app/admin/tv/page.tsx:245 | a status selection shows only TVs with exactly that status |
| Tvs.TypeColor | src/app/admin/tv/page.tsx:229-242 | a string gets a colour other than gray iff it is the label of a TV type |
| Tvs.TypeColorsDistinct | src/app/admin/tv/page.tsx:229-242 | the four TV types get four different colours |
| Tvs.TvStatsPartition | src/app/admin/tv/page.tsx:273-278 | available + in use + maintenance = total, and no card exceeds the total |
| Foods.TabAfterStatus | src/app/admin/food/page.tsx:145-161 | a known food status keeps the tab; "All" and any other string select "All" |
| Foods.FoodFilters.constructor | src/app/admin/food/page.tsx:19-30 | the page starts on tab "All", status "All" and an empty search |
| Foods.FoodFilters.ChangeStatusFilter | src/app/admin/food/page.tsx:145-161 | the status select takes the value and the tab becomes TabAfterStatus of the old tab |
| Foods.FoodFilters.ClickTab | src/app/admin/food/page.tsx:125-127 | a tab click changes only the tab |
| Foods.FilteredFoodSelects | src/app/admin/food/page.tsx:215-230 | the visible items are an order-preserving subsequence of the data, and an item is visible iff it matches |
| Foods.FilteredFoodUnfiltered | src/app/admin/food/page.tsx:215-230 | tab and status on "All" with an empty search show every item |
| Foods.FilteredFoodIdempotent | src/app/admin/food/page.tsx:215-230 | filtering the visible list again changes nothing |
| Foods.FilteredFoodCaseInsensitive | src/app/admin/food/page.tsx:226-228 | search terms that lower-case alike show the same items |
| Foods.FilteredFoodExact | src/app/admin/food/page.tsx:215-225 | a category tab shows only that category; a status selection shows only that status |
| Foods.FilteredFoodUndescribed | src/app/admin/food/page.tsx:226-228 | an item without a description is visible iff its name matches the search |
| Foods.FilteredFoodUnknownStatus | src/app/admin/food/page.tsx:224-225 | a status string that is no food status shows nothing |
| Foods.StatusAllLeavesSearch | src/app/admin/food/page.tsx:145-161 | after selecting status "All", only the search narrows the list |
| Users.FilteredUsersSelects | src/app/admin/users/page.tsx:174-182 | the visible users are an order-preserving subsequence of the data, and a user is visible iff they match |
| Users.FilteredUsersUnfiltered | src/app/admin/users/page.tsx:174-182 | status "All" with an empty search shows every user |
| Users.FilteredUsersIdempotent | src/app/admin/users/page.tsx:174-182 | filtering the visible list again changes nothing |
| Users.FilteredUsersByStatus | src/app/admin/users/page.tsx:175-176 | a status selection shows only users with exactly that status |
| Users.FilteredUsersCaseInsensitive | src/app/admin/users/page.tsx:177-180 | terms that lower-case alike show the same users, provided they agree on every raw phone substring test |
| Users.PhoneSearchIsCaseSensitive | src/app/admin/users/page.tsx:177-180 | the phone is searched with the raw term: an upper-case letter found only in the phone matches, and its lower-case form does not |
| Rentals.FilteredUnitsSelects | src/app/admin/rent/page.tsx:147-155 | the visible units are an order-preserving subsequence of the data, and a unit is visible iff it matches |
| Rentals.FilteredUnitsUnfiltered | src/app/admin/rent/page.tsx:147-155 | tab and status on "All" with an empty search show every unit |
| Rentals.FilteredUnitsIdempotent | src/app/admin/rent/page.tsx:147-155 | filtering the visible list again changes nothing |
| Rentals.FilteredUnitsCaseInsensitive | src/app/admin/rent/page.tsx:151-153 | search terms that lower-case alike show the same units |
| Rentals.FilteredUnitsExact | src/app/admin/rent/page.tsx:148-150 | a type tab shows only that type; a status selection shows only that status |
| Rentals.FilteredUnitsUnrented | src/app/admin/rent/page.tsx:151-153 | a unit with no user is visible iff its number matches the search |
| Rentals.AvailableCardsWithinUnits | src/app/admin/rent/page.tsx:158-166 | the three available-per-type counts sum to at most the number of units |
| Rentals.UnitTypesOfData | src/app/admin/rent/page.tsx:31-101 | the fifteen units and the type of each |
| Rentals.UnitStatusesOfData | src/app/admin/rent/page.tsx:31-101 | the fifteen units and the status of each |
| Rentals.TypeCountsOfShape | src/app/admin/rent/page.tsx:31-101 | fifteen units typed as in the data hold 6 PS4, 5 PS5 and 4 VIP units |
| Rentals.AvailableCountsOfShape | src/app/admin/rent/page.tsx:158-166 | fifteen units with the data's statuses have two available units of each type |
| Rentals.Ps4CardDenominatorIsWrong | src/app/admin/rent/page.tsx:180 | the data holds 6 PS4 units, not the 5 that the PS4 card shows |
| Rentals.Ps4CorrectedDenominator | src/app/admin/rent/page.tsx:180 | the corrected PS4 card's denominator is 6 |
| Rentals.UnitsDenominator | src/app/admin/rent/page.tsx:180-196 | a card's denominator, the number of units of its type, bounds its available count and is bounded by the number of units |
| Rentals.Ps5CardDenominator | src/app/admin/rent/page.tsx:188 | the PS5 card's "/5" equals the PS5 unit count |
| Rentals.VipCardDenominator | src/app/admin/rent/page.tsx:196 | the VIP card's "/4" equals the VIP unit count |
| Rentals.AvailableCardValues | src/app/admin/rent/page.tsx:158-166 | each type card shows 2 available units on the constant data |
| StatsOverview.Stats | src/components/admin/rent/StatsOverview.tsx:18-26 | the three available-per-type counts sum to at most the number of units |
| StatsOverview.StatsMatchRentPage | src/components/admin/rent/StatsOverview.tsx:18-26 | each count equals the rent page's inline count for that type |
| StatsOverview.StatsPermutationInvariant | src/components/admin/rent/StatsOverview.tsx:18-26 | reordering the units does not change the counts |
| StatsOverview.StatsOfRentData | src/components/admin/rent/StatsOverview.tsx:18-26 | on the rent page's data the overview shows 2, 2 and 2 |
| StatsOverview.OverviewDenominatorsOnRentData | src/components/admin/rent/StatsOverview.tsx:37-53 | on the rent page's data the overview's fixed "/5" for PS4 is wrong (6 units), while its PS5 "/5" and VIP "/4" are right |
| Paging.TotalPages | src/components/ui/TableWithPagination.tsx:30 | `ceil(n/k)`: the least page count whose pages hold n items, zero iff there are no items |
| Paging.MoreThanOnePage | src/components/ui/TableWithPagination.tsx:119 | there is more than one page iff there are more items than fit on one |
| Paging.StartIndex | src/components/ui/TableWithPagination.tsx:31 | `(currentPage-1)*itemsPerPage` is never negative from page 1 on |
| Paging.SliceIndex | src/components/ui/TableWithPagination.tsx:32 | a `slice` bound: negative counts from the end, and the result is clamped to [0, n] |
| Paging.Slice | src/components/ui/TableWithPagination.tsx:32 | `slice` is the segment between the clamped bounds, or empty when they cross |
| Paging.PageIsSegment | src/components/ui/TableWithPagination.tsx:31-32 | a page is the contiguous segment starting at `(page-1)*k`, with at most k items |
| Paging.PageBeyondLast | src/components/admin/dashboard/RoomStatus.tsx:118-123 | a page past the last one is empty |
| Paging.PageInRangeNonEmpty | src/components/admin/dashboard/RoomStatus.tsx:118-123 | a page between 1 and the page count holds at least one item |
| Paging.PagesUpToPrefix | src/components/admin/dashboard/RoomStatus.tsx:118-123 | pages 1..m concatenate to the first m*k items |
| Paging.PagesPartition | src/components/admin/dashboard/RoomStatus.tsx:118-123 | pages 1..totalPages concatenate to the whole list |
| Paging.ShowingRange | src/components/ui/TableWithPagination.tsx:122-123 | the range starts at `startIndex+1` and ends at `min(startIndex+itemsPerPage, n)`: never past either bound, and equal to one of them |
| Paging.RangeDescribesPage | src/components/ui/TableWithPagination.tsx:122-123 | for a page in range, "a to b" counts exactly the items shown, and they are items a..b |
| Paging.RangeBeyondLast | src/components/ui/Pagination.tsx:28-29 | on a page past the last one the range ends at the total and starts after it |
| PageControls.RenderPagination | src/components/ui/Pagination.tsx:23-44 | nothing renders iff `totalPages <= 1`; otherwise the text is the showing range of the props' start index, page size and item count, the label is `currentPage` of `totalPages`, prev is disabled iff on page 1, next iff on the last page |
| PageControls.PaginationRequestsInRange | src/components/ui/Pagination.tsx:33-45 | from a page in range, an enabled button requests a page in range |
| PageControls.ControlsShown | src/components/ui/TableUi.tsx:67 | controls show iff `showPagination`, more than one page and a page handler |
| PageControls.DefaultsHideControls | src/components/ui/TableUi.tsx:26-29 | with the default props no controls show |
| PageControls.ClampedPrev | src/components/ui/TableUi.tsx:70 | `max(currentPage-1, 1)` |
| PageControls.ClampedNext | src/components/ui/TableUi.tsx:80 | `min(currentPage+1, totalPages)` |
| PageControls.TableUiRequestsInRange | src/components/ui/TableUi.tsx:70-80 | from a page in range, both requests are in range and step by one away from the bounds |
| PageControls.CellValue | src/components/ui/TableUi.tsx:56-58 | a cell is the renderer's value when there is one, else the row's value under the column key |
| PagedTables.EmptyRowColSpan | src/components/ui/TableWithPagination.tsx:104-108 | the empty row spans every header: the columns plus one when an edit or delete action exists |
| PagedTables.PagedTable.ControlsShown | src/components/ui/TableWithPagination.tsx:119 | controls show iff the data does not fit on one page |
| PagedTables.PagedTable.constructor | src/components/ui/TableWithPagination.tsx:24-28 | items per page default to 5; the table starts on page 1, in range |
| PagedTables.PagedTable.Prev | src/components/ui/TableWithPagination.tsx:128 | the page becomes `max(page-1, 1)` and stays in range |
| PagedTables.PagedTable.Next | src/components/ui/TableWithPagination.tsx:139 | the page becomes `min(page+1, totalPages)` and stays in range |
| PagedTables.EmptyRowOnlyWithoutData | src/components/ui/TableWithPagination.tsx:67 | on a page in range the "No data" row appears iff the data is empty, and no page holds more than its size |
| Upcoming.UpcomingPage | src/components/admin/dashboard/UpcomingBookings.tsx:80-84 | every page holds at most 4 bookings |
| Upcoming.UpcomingTwoPages | src/components/admin/dashboard/UpcomingBookings.tsx:77-79 | 8 bookings at 4 per page make 2 pages |
| Upcoming.UpcomingPages | src/components/admin/dashboard/UpcomingBookings.tsx:76-84 | page 1 starts at index 0 and holds the first four bookings; page 2 holds the rest |
| Upcoming.UpcomingPagesPartition | src/components/admin/dashboard/UpcomingBookings.tsx:79-84 | the pages together give the bookings in order |
| RoomPanel.FilteredPanelRooms | src/components/admin/dashboard/RoomStatus.tsx:109-116 | only the active tab's rooms are filtered: the result is a subsequence of them, every shown room matches, and every matching room of the tab is shown |
| RoomPanel.FilteredPanelRoomsCaseInsensitive | src/components/admin/dashboard/RoomStatus.tsx:111-115 | two search terms that lower-case alike show the same rooms |
| RoomPanel.RoomStatusPanel.constructor | src/components/admin/dashboard/RoomStatus.tsx:90-93 | the panel starts on PS5, status "All", no search, page 1, on a real page |
| RoomPanel.RoomStatusPanel.ClickTab | src/components/admin/dashboard/RoomStatus.tsx:144-147 | a tab click sets the tab and resets the page to 1 |
| RoomPanel.RoomStatusPanel.ChangePage | src/components/admin/dashboard/RoomStatus.tsx:248-255 | a page request in range becomes the current page |
| RoomPanel.RoomStatusPanel.SetSearchKeepingPage | src/components/admin/dashboard/RoomStatus.tsx:170 | as written: the search changes and the page is kept |
| RoomPanel.RoomStatusPanel.SetStatusKeepingPage | src/components/admin/dashboard/RoomStatus.tsx:176 | as written: the status changes and the page is kept |
| RoomPanel.RoomStatusPanel.SetSearch | src/components/admin/dashboard/RoomStatus.tsx:170 | corrected: the search changes, the page resets to 1 and stays on a real page |
| RoomPanel.RoomStatusPanel.SetStatus | src/components/admin/dashboard/RoomStatus.tsx:176 | corrected: the status changes, the page resets to 1 and stays on a real page |
| RoomPanel.RealPageShowsRooms | src/components/admin/dashboard/RoomStatus.tsx:118-123 | on a real page, rooms are shown whenever any match, and at most 3 |
| RoomPanel.PanelPagesPartition | src/components/admin/dashboard/RoomStatus.tsx:118-123 | the panel's pages together give the filtered rooms in order |
| RoomPanel.AvailablePs4Rooms | src/components/admin/dashboard/RoomStatus.tsx:8-87 | the PS4 tab with status "Available" shows its first and fourth rooms |
| RoomPanel.StaleStatusPageIsEmpty | src/components/admin/dashboard/RoomStatus.tsx:118-123 | on PS4 page 2, selecting "Available" leaves one page, shows an empty page and hides the controls |
| Layout.TitleIn | src/components/layout/LayoutWrapper.tsx:21-37 | a mapped non-empty title or else "Cosmic Admin"; never empty |
| Layout.RentLinkGetsDefaultTitle | src/components/layout/LayoutWrapper.tsx:24 | the sidebar's "/admin/rent" is not in the table and gets "Cosmic Admin" |
| Layout.EverySidebarLinkHasItsTitle | src/components/layout/Sidebar.tsx:39-66 | with the key corrected, every sidebar link gets its own title, the Rent page gets "Rents" and other paths are unchanged |
| Layout.LayoutShell.constructor | src/components/layout/LayoutWrapper.tsx:15-18 | the shell starts with the sidebar open, not mobile, the navbar shown and offset 0 |
| Layout.LayoutShell.HandleResize | src/components/layout/LayoutWrapper.tsx:42-50 | mobile iff the width is below 768, and the sidebar is open iff not mobile |
| Layout.LayoutShell.HandleScroll | src/components/layout/LayoutWrapper.tsx:57-70 | on mobile the navbar shows iff at most 50 down or not scrolling down, and the offset is recorded; off mobile nothing changes |
| Layout.LayoutShell.ToggleSidebar | src/components/layout/LayoutWrapper.tsx:77 | the sidebar flips and nothing else changes |
| Layout.NavbarAfterScroll | src/components/layout/LayoutWrapper.tsx:60-66 | within 50 of the top the navbar shows; further down it shows iff the user scrolled up or stayed |
| Layout.ToggleTwiceRestores | src/components/layout/LayoutWrapper.tsx:77 | toggling twice restores the whole shell state |
| Layout.ScrollFollowsRule | src/components/layout/LayoutWrapper.tsx:57-70 | a mobile scroll sets the navbar by the scroll rule on the old offset |

## Left out

- Rendering is not modelled: JSX, Tailwind classes other than the battery and TV-type colours, animations, icons, and the `getStatusColor`/status-icon helpers that only pick a class.
- Browser and framework plumbing is not modelled: window listeners, `usePathname`, links and React hooks. The resize and scroll handlers take the width and scroll offset as parameters.
- Lower-casing is ASCII only (A-Z to a-z). JavaScript `toLowerCase` also folds non-ASCII letters, and the data and search terms here are ASCII.
- Dates, hours and prices are display strings that are never parsed, and they are not modelled.
- Record datatypes keep only the fields the filters, counts and colours read.
- Console, controller and TV stat cards: the model proves their disjointness or partition and the console and controller denominators, but not the card values on the constant data. The rent page's and the overview's card values are proved.
- Rooms.SearchDavisFindsItsRoom: proves that the "Davis" search shows PS5-002, not that it shows PS5-002 alone.
- Controllers.BatteryColor, Controllers.ShownBattery: a NaN battery level (which `|| 0` turns into 0, shown red) is not modelled; levels are real numbers, so fractional levels such as 79.5 are covered.
- StatsOverview.CardDenominators: the overview prints "/5", "/5" and "/4 units" whatever `units` holds; the model keeps them as constants and compares them only with the rent page's data.
- Paging: a non-positive items-per-page (division by zero or a negative slice in JavaScript) is not modelled; every caller uses a positive constant or the default of 5.
- PagedTables.PagedTable: the source does not reset the current page when the `data` prop changes, and the model holds the data constant.
- Upcoming: the props the panel passes to `Pagination` are not modelled beyond the page slice; the component itself is modelled in PageControls.
- PageControls.CellValue: a missing key is `None` where JavaScript gives `undefined`, and renderers are pure functions.
- Bookings: the tab is exact equality on the status, as the code does; Active and Missed bookings appear only under "All".
- The edit, delete, reschedule, cancel and start-rental buttons have no handlers, and there is nothing to model.
- The charts, the dashboard's hard-coded numbers and the presentational components (stat card, search input, select, tabs, empty states, sidebar and navbar menus) are not part of this model.

## Findings

| source | as written | input that shows it | evidently intended | confidence | as-written member | corrected member |
|---|---|---|---|---|---|---|
| src/app/admin/rent/page.tsx:180 | the PS4 card shows "/5 units" (and the overview repeats it at src/components/admin/rent/StatsOverview.tsx:37) | `unitsData` holds 6 PS4 units (PS4-001..005 and PS4-006) | the denominator is the number of PS4 units, 6 | not executed | Rentals.Ps4CardDenominatorIsWrong | Rentals.UnitsDenominator |
| src/components/admin/dashboard/RoomStatus.tsx:170-176 | changing the search or the status keeps the current page | PS4 tab, page 2, then status "Available": 2 rooms make 1 page, page 2 is empty and the controls are hidden | the page resets to 1, as a tab click does | not executed | RoomPanel.StaleStatusPageIsEmpty | RoomPanel.RoomStatusPanel.SetStatus |
| src/components/layout/LayoutWrapper.tsx:24 | the title table's key is "/admin/rents" | the sidebar's Rent link "/admin/rent" gets "Cosmic Admin" | the key is "/admin/rent", titled "Rents" | not executed | Layout.RentLinkGetsDefaultTitle | Layout.EverySidebarLinkHasItsTitle |

/** The food menu page: the item list filtered by a category tab, a status select and a search box, and the
    handler that resets the tab when the status select leaves the known statuses. */
module Foods {
  import opened Text
  import opened Records

  datatype FoodCategory = Makanan | Minuman | Snack {
    function Label(): string {
      match this
      case Makanan => "Makanan"
      case Minuman => "Minuman"
      case Snack => "Snack"
    }
  }

  datatype FoodStatus = Available | OutOfStock | Discontinued {
    function Label(): string {
      match this
      case Available => "Available"
      case OutOfStock => "Out of Stock"
      case Discontinued => "Discontinued"
    }
  }

  /** The fields of a menu item that the page filters on; the description is optional. */
  datatype Food = Food(id: string, name: string, category: FoodCategory, status: FoodStatus, description: Option<string>)

  /** The category tab bar ("All" or a category), the status select (a string) and the search box. */
  datatype FoodQuery = FoodQuery(activeTab: Tab<FoodCategory>, statusFilter: string, searchTerm: string)

  const Unfiltered: FoodQuery := FoodQuery(AllTab, "All", "")

  const foodData: seq<Food> := [
    Food("1", "Nasi Goreng Spesial", Makanan, Available, Some("Nasi goreng dengan telur, ayam, dan sayuran")),
    Food("2", "Mie Ayam", Makanan, OutOfStock, Some("Mie ayam dengan bakso dan pangsit")),
    Food("3", "Burger Beef", Makanan, Available, Some("Burger daging sapi dengan keju dan sayuran")),
    Food("4", "Es Teh Manis", Minuman, Available, Some("Teh manis dingin segar")),
    Food("5", "Jus Jeruk", Minuman, Available, Some("Jus jeruk segar tanpa gula tambahan")),
    Food("6", "Kopi Hitam", Minuman, OutOfStock, Some("Kopi hitam premium")),
    Food("7", "Keripik Kentang", Snack, Available, Some("Keripik kentang rasa original")),
    Food("8", "Coklat Bar", Snack, Available, Some("Coklat batang premium")),
    Food("9", "Kacang Goreng", Snack, Discontinued, Some("Kacang goreng pedas manis"))
  ]

  /** Case-insensitive search over the name, and over the description only when there is one. */
  predicate MatchesSearch(f: Food, term: string) {
    MatchesText(f.name, term) || (f.description.Some? && MatchesText(f.description.value, term))
  }

  predicate MatchesFood(f: Food, q: FoodQuery) {
    && OnTab(q.activeTab, f.category)
    && Selects(q.statusFilter, f.status.Label())
    && MatchesSearch(f, q.searchTerm)
  }

  /** `filteredFood`, applied by the page to `foodData`. */
  function FilteredFood(data: seq<Food>, q: FoodQuery): seq<Food> {
    Keep(data, (f: Food) => MatchesFood(f, q))
  }

  /** The tab after `handleStatusFilterChange(status)`: a status the menu knows keeps the current tab;
      "All" and every other value reset it to "All". */
  function TabAfterStatus(tab: Tab<FoodCategory>, status: string): (t: Tab<FoodCategory>)
    ensures (exists s: FoodStatus :: s.Label() == status) ==> t == tab
    ensures (forall s: FoodStatus :: s.Label() != status) ==> t == AllTab
  {
    match status
    case "All" => AllTab
    case "Available" => assert Available.Label() == status; tab
    case "Out of Stock" => assert OutOfStock.Label() == status; tab
    case "Discontinued" => assert Discontinued.Label() == status; tab
    case _ => AllTab
  }

  /** The page's filter state, updated in place by its handlers. */
  class FoodFilters {
    var activeTab: Tab<FoodCategory>
    var statusFilter: string
    var searchTerm: string

    function Query(): FoodQuery
      reads this
    {
      FoodQuery(activeTab, statusFilter, searchTerm)
    }

    constructor()
      ensures Query() == Unfiltered
    {
      activeTab := AllTab;
      statusFilter := "All";
      searchTerm := "";
    }

    /** `handleStatusFilterChange(status)`: the status select always takes the value, and the tab becomes
        TabAfterStatus of the old tab. */
    method ChangeStatusFilter(status: string)
      modifies this
      ensures statusFilter == status && searchTerm == old(searchTerm)
      ensures activeTab == TabAfterStatus(old(activeTab), status)
    {
      statusFilter := status;
      match status {
        case "All" => activeTab := AllTab;
        case "Available" =>
        case "Out of Stock" =>
        case "Discontinued" =>
        case _ => activeTab := AllTab;
      }
    }

    /** A tab click: only the tab changes. */
    method ClickTab(tab: Tab<FoodCategory>)
      modifies this
      ensures activeTab == tab && statusFilter == old(statusFilter) && searchTerm == old(searchTerm)
    {
      activeTab := tab;
    }
  }

  /** The visible list is an order-preserving subsequence of the data, holding exactly the items that match. */
  lemma FilteredFoodSelects(data: seq<Food>, q: FoodQuery)
    ensures SubsequenceOf(FilteredFood(data, q), data)
    ensures forall i :: 0 <= i < |FilteredFood(data, q)| ==> MatchesFood(FilteredFood(data, q)[i], q)
    ensures forall i :: 0 <= i < |data| ==> (MatchesFood(data[i], q) <==> data[i] in FilteredFood(data, q))
  {
    var p := (f: Food) => MatchesFood(f, q);
    KeepSubsequence(data, p);
    KeepSound(data, p);
    KeepComplete(data, p);
    var k := FilteredFood(data, q);
    forall i | 0 <= i < |data| && data[i] in k ensures MatchesFood(data[i], q) {
      var j :| 0 <= j < |k| && k[j] == data[i];
    }
  }

  /** With the tab and the status on "All" and an empty search, every item is visible. */
  lemma FilteredFoodUnfiltered(data: seq<Food>)
    ensures FilteredFood(data, Unfiltered) == data
  {
    forall f | f in data ensures MatchesFood(f, Unfiltered) {
      MatchesTextEmpty(f.name);
    }
    KeepAllPass(data, (f: Food) => MatchesFood(f, Unfiltered));
  }

  /** Filtering the visible list again changes nothing. */
  lemma FilteredFoodIdempotent(data: seq<Food>, q: FoodQuery)
    ensures FilteredFood(FilteredFood(data, q), q) == FilteredFood(data, q)
  {
    KeepIdempotent(data, (f: Food) => MatchesFood(f, q));
  }

  /** Two search terms that lower-case alike select the same items. */
  lemma FilteredFoodCaseInsensitive(data: seq<Food>, q: FoodQuery, term: string)
    requires Lower(term) == Lower(q.searchTerm)
    ensures FilteredFood(data, q.(searchTerm := term)) == FilteredFood(data, q)
  {
    var q' := q.(searchTerm := term);
    forall f | f in data ensures MatchesFood(f, q') == MatchesFood(f, q) {
      MatchesTextCaseInsensitive(f.name, term, q.searchTerm);
      if f.description.Some? {
        MatchesTextCaseInsensitive(f.description.value, term, q.searchTerm);
      }
    }
    KeepAgree(data, (f: Food) => MatchesFood(f, q'), (f: Food) => MatchesFood(f, q));
  }

  /** A category tab is exact equality on the category, and a status selection other than "All" is exact
      equality on the status. */
  lemma FilteredFoodExact(data: seq<Food>, q: FoodQuery)
    ensures q.activeTab.TabOf? ==> forall i :: 0 <= i < |FilteredFood(data, q)| ==> FilteredFood(data, q)[i].category == q.activeTab.value
    ensures q.statusFilter != "All" ==> forall i :: 0 <= i < |FilteredFood(data, q)| ==> FilteredFood(data, q)[i].status.Label() == q.statusFilter
  {
    KeepSound(data, (f: Food) => MatchesFood(f, q));
  }

  /** An item without a description is found by its name alone. */
  lemma FilteredFoodUndescribed(data: seq<Food>, q: FoodQuery, i: nat)
    requires i < |data| && data[i].description.None?
    requires OnTab(q.activeTab, data[i].category) && Selects(q.statusFilter, data[i].status.Label())
    ensures data[i] in FilteredFood(data, q) <==> MatchesText(data[i].name, q.searchTerm)
  {
    FilteredFoodSelects(data, q);
  }

  /** A status value the menu does not know (the handler's `default:` branch) matches no item. */
  lemma FilteredFoodUnknownStatus(data: seq<Food>, q: FoodQuery)
    requires q.statusFilter != "All" && forall s: FoodStatus :: s.Label() != q.statusFilter
    ensures FilteredFood(data, q) == []
  {
    KeepNonePass(data, (f: Food) => MatchesFood(f, q));
  }

  /** After the status select returns to "All", the tab is "All" too and only the search narrows the list. */
  lemma StatusAllLeavesSearch(data: seq<Food>, q: FoodQuery)
    ensures FilteredFood(data, q.(activeTab := TabAfterStatus(q.activeTab, "All"), statusFilter := "All"))
         == Keep(data, (f: Food) => MatchesSearch(f, q.searchTerm))
  {
    var q' := q.(activeTab := TabAfterStatus(q.activeTab, "All"), statusFilter := "All");
    KeepAgree(data, (f: Food) => MatchesFood(f, q'), (f: Food) => MatchesSearch(f, q.searchTerm));
  }
}

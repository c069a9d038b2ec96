/**
 * The list logic of the home screen (src/screens/HomeScreen.tsx): the booking
 * tab filter, the service search with its recommendation dropdown, the split
 * of the services into the first eight and the rest padded to rows of four,
 * and the star colour of an offer card.
 */
module HomeScreen {
  import opened JsText
  import opened MockData

  // ------------------------------------------------------------ star colour

  /** `getStarColor(bgColor)`: green and yellow backgrounds get their own colour, every other one dark blue. */
  function GetStarColor(bgColor: string): (r: string)
    ensures r == "#3AC46E" <==> bgColor == "#D6FCD6"
    ensures r == "#F6B93B" <==> bgColor == "#FFF7CC"
    ensures r == "#2266C1" <==> bgColor != "#D6FCD6" && bgColor != "#FFF7CC"
  {
    match bgColor
    case "#C0E4FF" => "#2266C1"
    case "#D6FCD6" => "#3AC46E"
    case "#FFF7CC" => "#F6B93B"
    case _ => "#2266C1"
  }

  // ------------------------------------------------------------- tab filter

  /** `mockData.bookings`; a list the data leaves out is empty (the `|| []`). */
  datatype Bookings<B> = Bookings(ongoing: seq<B>, completed: seq<B>, incomplete: seq<B>, complaints: seq<B>)

  /** The keys of `TABS`. */
  const TabKeys: set<string> := {"all", "ongoing", "completed", "incomplete", "complaints"}

  /** `filteredBookings` for the selected tab. */
  function FilteredBookings<B>(selectedTab: string, bookings: Bookings<B>): seq<B> {
    if selectedTab == "all" then bookings.ongoing
    else if selectedTab == "ongoing" then bookings.ongoing
    else if selectedTab == "completed" then bookings.completed
    else if selectedTab == "incomplete" then bookings.incomplete
    else if selectedTab == "complaints" then bookings.complaints
    else []
  }

  /** "all" shows the ongoing bookings like "ongoing" does, and a tab outside `TABS` shows none. */
  lemma TabSelection<B>(selectedTab: string, bookings: Bookings<B>)
    ensures FilteredBookings("all", bookings) == FilteredBookings("ongoing", bookings) == bookings.ongoing
    ensures FilteredBookings("completed", bookings) == bookings.completed
    ensures FilteredBookings("incomplete", bookings) == bookings.incomplete
    ensures FilteredBookings("complaints", bookings) == bookings.complaints
    ensures selectedTab !in TabKeys ==> FilteredBookings(selectedTab, bookings) == []
  {
  }

  // ----------------------------------------------------------------- search

  /** The service's lower-cased name contains the lower-cased query. */
  predicate NameMatches(service: Service, text: string) {
    Contains(ToLower(service.name), ToLower(text))
  }

  /** `services.filter(service => service.name.toLowerCase().includes(text.toLowerCase()))`. */
  function SearchResults(services: seq<Service>, text: string): seq<Service> {
    if services == [] then []
    else
      var last := services[|services| - 1];
      SearchResults(services[..|services| - 1], text) + (if NameMatches(last, text) then [last] else [])
  }

  /** The results are exactly the matching services, and no more of them than there are services. */
  lemma {:induction false} SearchResultsMembers(services: seq<Service>, text: string)
    ensures forall s :: s in SearchResults(services, text) <==> s in services && NameMatches(s, text)
    ensures |SearchResults(services, text)| <= |services|
  {
    if services != [] {
      var init := services[..|services| - 1];
      SearchResultsMembers(init, text);
      assert services == init + [services[|services| - 1]];
    }
  }

  /** The results keep catalog order: searching a concatenation searches each part in place. */
  lemma {:induction false} SearchResultsAppend(a: seq<Service>, b: seq<Service>, text: string)
    ensures SearchResults(a + b, text) == SearchResults(a, text) + SearchResults(b, text)
    decreases |b|
  {
    if b == [] {
      assert a + b == a;
    } else {
      SearchResultsAppend(a, b[..|b| - 1], text);
      assert (a + b)[..|a + b| - 1] == a + b[..|b| - 1];
    }
  }

  /** The search ignores the case of the query. */
  lemma SearchIgnoresCase(services: seq<Service>, text: string)
    ensures SearchResults(services, ToLower(text)) == SearchResults(services, text)
  {
    ToLowerIdempotent(text);
    SearchIgnoresCaseFrom(services, text);
  }

  lemma {:induction false} SearchIgnoresCaseFrom(services: seq<Service>, text: string)
    requires ToLower(ToLower(text)) == ToLower(text)
    ensures SearchResults(services, ToLower(text)) == SearchResults(services, text)
  {
    if services != [] {
      SearchIgnoresCaseFrom(services[..|services| - 1], text);
    }
  }

  /** The search box and its recommendation dropdown. */
  class HomeSearch {
    var searchQuery: string
    var recommendations: seq<Service>
    var showRecommendations: bool

    /** The dropdown is only ever shown with something in it. */
    ghost predicate Valid()
      reads this
    {
      showRecommendations ==> |recommendations| > 0
    }

    constructor ()
      ensures Valid()
      ensures searchQuery == "" && recommendations == [] && !showRecommendations
    {
      searchQuery := "";
      recommendations := [];
      showRecommendations := false;
    }

    /** `handleSearch(text)`: a blank query clears the dropdown; any other lists the matches in catalog order. */
    method HandleSearch(services: seq<Service>, text: string)
      requires Valid()
      modifies this
      ensures Valid()
      ensures searchQuery == text
      ensures IsBlank(text) ==> recommendations == [] && !showRecommendations
      ensures !IsBlank(text) ==> recommendations == SearchResults(services, text)
      ensures !IsBlank(text) ==> (showRecommendations <==> recommendations != [])
      ensures forall s :: s in recommendations ==> s in services && NameMatches(s, text)
    {
      searchQuery := text;
      TrimEmptyIffBlank(text);
      if |Trim(text)| == 0 {
        recommendations := [];
        showRecommendations := false;
        return;
      }
      var filtered := SearchResults(services, text);
      SearchResultsMembers(services, text);
      recommendations := filtered;
      showRecommendations := |filtered| > 0;
    }

    /** `handleRecommendationSelect(service)`, without the navigation it starts. */
    method HandleRecommendationSelect(service: Service)
      requires Valid()
      modifies this
      ensures Valid()
      ensures searchQuery == service.name && recommendations == [] && !showRecommendations
    {
      searchQuery := service.name;
      showRecommendations := false;
      recommendations := [];
    }

    /** Focusing the box shows the dropdown again when there is a query and there are recommendations. */
    method Focus()
      requires Valid()
      modifies this`showRecommendations
      ensures Valid()
      ensures showRecommendations <==> old(showRecommendations) || (searchQuery != "" && recommendations != [])
    {
      if searchQuery != "" && |recommendations| > 0 {
        showRecommendations := true;
      }
    }

    /** The clear button. */
    method Clear()
      requires Valid()
      modifies this
      ensures Valid()
      ensures searchQuery == "" && recommendations == [] && !showRecommendations
    {
      searchQuery := "";
      recommendations := [];
      showRecommendations := false;
    }
  }

  // ------------------------------------------------------ the service grid

  function Min(a: int, b: int): int {
    if a < b then a else b
  }

  /** `services.slice(0, 8)`. */
  function First8(services: seq<Service>): seq<Service> {
    services[..Min(8, |services|)]
  }

  /** `services.slice(8)`. */
  function Rest(services: seq<Service>): seq<Service> {
    services[Min(8, |services|)..]
  }

  /** The first eight and the rest make up the services, with the rest non-empty only past eight. */
  lemma SplitServices(services: seq<Service>)
    ensures First8(services) + Rest(services) == services
    ensures |First8(services)| == Min(8, |services|)
    ensures Rest(services) != [] <==> |services| > 8
  {
  }

  /** An entry of the grid below the first eight: a service or a placeholder. */
  datatype Tile = ServiceTile(service: Service) | EmptyTile(id: string)

  /** The id of the placeholder in column `column`: `empty-rest-${column}`. */
  function EmptyId(column: nat): string
    requires column < 4
  {
    "empty-rest-" + [('0' as int + column) as char]
  }

  /** `rest.slice()`, each service as a tile. */
  function Tiles(rest: seq<Service>): (r: seq<Tile>)
    ensures |r| == |rest| && forall i | 0 <= i < |rest| :: r[i] == ServiceTile(rest[i])
  {
    seq(|rest|, i requires 0 <= i < |rest| => ServiceTile(rest[i]))
  }

  /**
   * `restPadded`: the rest, then placeholders up to a full row of four. Each
   * placeholder's id names the column it fills.
   */
  method PadRest(rest: seq<Service>) returns (restPadded: seq<Tile>)
    ensures |restPadded| >= |rest| && restPadded[..|rest|] == Tiles(rest)
    ensures rest == [] ==> restPadded == []
    ensures rest != [] ==> |restPadded| % 4 == 0 && |restPadded| < |rest| + 4
    ensures forall k | |rest| <= k < |restPadded| :: restPadded[k] == EmptyTile(EmptyId(k % 4))
  {
    restPadded := Tiles(rest);
    if |rest| > 0 && |rest| % 4 != 0 {
      var base := |rest| - |rest| % 4;
      var i := |rest| % 4;
      while i < 4
        invariant |rest| % 4 <= i <= 4
        invariant |restPadded| == base + i
        invariant restPadded[..|rest|] == Tiles(rest)
        invariant forall k | |rest| <= k < |restPadded| :: restPadded[k] == EmptyTile(EmptyId(k % 4))
      {
        ColumnOf(base, i);
        restPadded := restPadded + [EmptyTile(EmptyId(i))];
        i := i + 1;
      }
      ColumnOf(base, 0);
    }
  }

  /** Past a whole number of rows, position `base + i` is column `i`. */
  lemma ColumnOf(base: int, i: nat)
    requires base >= 0 && base % 4 == 0 && i < 4
    ensures (base + i) % 4 == i
  {
  }
}

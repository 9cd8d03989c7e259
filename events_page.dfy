/**
 * The events listing: the loaded events, narrowed by a type filter and a free-text search,
 * sorted newest first or by title, with a result count and a reset.
 */
module EventsPage {
  import opened Strings

  /** An event; `date` is the instant the ISO date string denotes, in milliseconds. */
  datatype Event = Event(id: string, title: string, date: int, description: string, kind: string, image: string)

  datatype SortType = ByDate | Alphabetical

  /** The value of the type selector that applies no type filter. */
  const AllTypes: string := "all"

  /** `items.filter(p)`: the elements that satisfy `p`, in their order. */
  function Filter(s: seq<Event>, p: Event -> bool): (r: seq<Event>)
    ensures |r| <= |s|
    ensures forall x :: x in r <==> x in s && p(x)
    ensures multiset(r) <= multiset(s)
    ensures forall x :: multiset(r)[x] == if p(x) then multiset(s)[x] else 0
  {
    if s == [] then []
    else
      var rest := Filter(s[1..], p);
      assert s == [s[0]] + s[1..];
      if p(s[0]) then [s[0]] + rest else rest
  }

  /** Filtering keeps the order: the filter of a concatenation is the concatenation of the filters. */
  lemma {:induction false} FilterConcat(a: seq<Event>, b: seq<Event>, p: Event -> bool)
    ensures Filter(a + b, p) == Filter(a, p) + Filter(b, p)
  {
    if a == [] {
      assert a + b == b;
    } else {
      FilterConcat(a[1..], b, p);
      FilterUncons(a, b, p);
      FilterHead(a, p);
      ConsAssoc(a[0], p(a[0]), Filter(a[1..], p), Filter(b, p));
    }
  }

  /** `Filter` of a concatenation, one step: the first element of the first list is kept iff it satisfies `p`. */
  lemma FilterUncons(a: seq<Event>, b: seq<Event>, p: Event -> bool)
    requires a != []
    ensures Filter(a + b, p) == if p(a[0]) then [a[0]] + Filter(a[1..] + b, p) else Filter(a[1..] + b, p)
  {
    assert a + b == [a[0]] + (a[1..] + b);
    FilterCons(a[0], a[1..] + b, p);
  }

  /** One step of `Filter`: the head is kept iff it satisfies the predicate. */
  lemma FilterHead(s: seq<Event>, p: Event -> bool)
    requires s != []
    ensures Filter(s, p) == if p(s[0]) then [s[0]] + Filter(s[1..], p) else Filter(s[1..], p)
  {
  }

  /** `FilterHead` for a list written as its head and its tail. */
  lemma FilterCons(x: Event, t: seq<Event>, p: Event -> bool)
    ensures Filter([x] + t, p) == if p(x) then [x] + Filter(t, p) else Filter(t, p)
  {
    assert ([x] + t)[0] == x && ([x] + t)[1..] == t;
  }

  lemma ConsAssoc(x: Event, keep: bool, u: seq<Event>, v: seq<Event>)
    ensures (if keep then [x] + (u + v) else u + v) == (if keep then [x] + u else u) + v
  {
  }

  /** Filtering by a predicate that every element satisfies keeps the whole list. */
  lemma {:induction false} FilterAll(s: seq<Event>, p: Event -> bool)
    requires forall x :: x in s ==> p(x)
    ensures Filter(s, p) == s
  {
    if s != [] {
      assert s == [s[0]] + s[1..];
      FilterAll(s[1..], p);
    }
  }

  /** The search: the lower-cased title or the lower-cased description contains the query. */
  predicate MatchesQuery(e: Event, lowered: string) {
    Contains(Lower(e.title), lowered) || Contains(Lower(e.description), lowered)
  }

  /** The search hits an event when the query occurs, at some offset, in its lower-cased title or description. */
  lemma MatchesQueryAt(e: Event, lowered: string)
    ensures MatchesQuery(e, lowered) <==>
      (exists i: nat :: OccursAt(Lower(e.title), lowered, i)) ||
      (exists i: nat :: OccursAt(Lower(e.description), lowered, i))
  {
    ContainsAt(Lower(e.title), lowered);
    ContainsAt(Lower(e.description), lowered);
  }

  /** An event passes both controls: its type is the selected one, and a non-blank query occurs in it. */
  predicate Passes(e: Event, query: string, selectedType: string) {
    && (selectedType == AllTypes || e.kind == selectedType)
    && (Trim(query) == "" || MatchesQuery(e, Lower(query)))
  }

  /**
   * The type filter, then, when the query is not blank, the search with the lower-cased untrimmed
   * query: every event that passes, as often as the loaded list holds it, and nothing else.
   */
  function Filtered(events: seq<Event>, query: string, selectedType: string): (r: seq<Event>)
    ensures forall e :: e in r <==> e in events && Passes(e, query, selectedType)
    ensures multiset(r) <= multiset(events)
    ensures forall e :: multiset(r)[e] == if Passes(e, query, selectedType) then multiset(events)[e] else 0
  {
    var byType := if selectedType != AllTypes then Filter(events, (e: Event) => e.kind == selectedType) else events;
    if Trim(query) != "" then
      var lowered := Lower(query);
      Filter(byType, (e: Event) => MatchesQuery(e, lowered))
    else byType
  }

  /** With no type filter and a blank query nothing is filtered out. */
  lemma FilteredAll(events: seq<Event>, query: string)
    requires IsBlank(query)
    ensures Filtered(events, query, AllTypes) == events
  {
    TrimEmptyIffBlank(query);
  }

  /**
   * The query is matched without trimming: a query with a leading space misses every event
   * whose title and description have no space, although its trimmed form is not blank.
   */
  lemma {:induction false} LeadingSpaceIsMatched(e: Event, query: string)
    requires query != [] && query[0] == ' '
    requires ' ' !in e.title && ' ' !in e.description
    ensures !MatchesQuery(e, Lower(query))
  {
    var q := Lower(query);
    assert q[0] == ' ';
    if Contains(Lower(e.title), q) {
      ContainedCharsOccur(Lower(e.title), q, 0);
    }
    if Contains(Lower(e.description), q) {
      ContainedCharsOccur(Lower(e.description), q, 0);
    }
  }

  // ---------------------------------------------------------------------------------------
  // Sorting

  /** `a.localeCompare(b)`, as a comparison of character codes. */
  function LexCompare(a: string, b: string): (r: int)
    ensures -1 <= r <= 1
    ensures r == 0 <==> a == b
  {
    if a == [] && b == [] then 0
    else if a == [] then -1
    else if b == [] then 1
    else if a[0] < b[0] then -1
    else if a[0] > b[0] then 1
    else
      var r := LexCompare(a[1..], b[1..]);
      assert a == [a[0]] + a[1..] && b == [b[0]] + b[1..];
      r
  }

  lemma {:induction false} LexCompareAntisymmetric(a: string, b: string)
    ensures LexCompare(a, b) == -LexCompare(b, a)
  {
    if a != [] && b != [] && a[0] == b[0] {
      LexCompareAntisymmetric(a[1..], b[1..]);
    }
  }

  lemma {:induction false} LexCompareTransitive(a: string, b: string, c: string)
    requires LexCompare(a, b) <= 0 && LexCompare(b, c) <= 0
    ensures LexCompare(a, c) <= 0
  {
    if a != [] && b != [] && c != [] && a[0] == b[0] && b[0] == c[0] {
      LexCompareTransitive(a[1..], b[1..], c[1..]);
    }
  }

  /** The comparator passed to `sort`: newest first by date, or by title. */
  function Compare(a: Event, b: Event, sortType: SortType): (r: int)
    ensures sortType == ByDate ==> (r < 0 <==> a.date > b.date) && (r == 0 <==> a.date == b.date)
    ensures sortType == Alphabetical ==> -1 <= r <= 1 && (r == 0 <==> a.title == b.title)
    ensures sortType == Alphabetical ==> r == -LexCompare(b.title, a.title)
  {
    match sortType
    case ByDate => b.date - a.date
    case Alphabetical => LexCompareAntisymmetric(a.title, b.title); LexCompare(a.title, b.title)
  }

  /** `a` may come before `b`: the comparator does not put `b` first. */
  predicate Before(a: Event, b: Event, sortType: SortType) {
    Compare(a, b, sortType) <= 0
  }

  lemma BeforeTotal(a: Event, b: Event, sortType: SortType)
    ensures Before(a, b, sortType) || Before(b, a, sortType)
  {
    if sortType == Alphabetical {
      LexCompareAntisymmetric(a.title, b.title);
    }
  }

  lemma BeforeTransitive(a: Event, b: Event, c: Event, sortType: SortType)
    requires Before(a, b, sortType) && Before(b, c, sortType)
    ensures Before(a, c, sortType)
  {
    if sortType == Alphabetical {
      LexCompareTransitive(a.title, b.title, c.title);
    }
  }

  predicate Sorted(s: seq<Event>, sortType: SortType) {
    forall i, j :: 0 <= i < j < |s| ==> Before(s[i], s[j], sortType)
  }

  /** `x` placed before the first element it may precede: after every element strictly before it. */
  function Insert(x: Event, s: seq<Event>, sortType: SortType): (r: seq<Event>)
    ensures multiset(r) == multiset(s) + multiset{x}
    ensures |r| == |s| + 1
  {
    if s == [] || Before(x, s[0], sortType) then [x] + s
    else
      assert s == [s[0]] + s[1..];
      [s[0]] + Insert(x, s[1..], sortType)
  }

  lemma {:induction false} InsertSorted(x: Event, s: seq<Event>, sortType: SortType)
    requires Sorted(s, sortType)
    ensures Sorted(Insert(x, s, sortType), sortType)
  {
    if s == [] {
    } else if Before(x, s[0], sortType) {
      forall j | 0 <= j < |s| ensures Before(x, s[j], sortType) {
        if j > 0 {
          BeforeTransitive(x, s[0], s[j], sortType);
        }
      }
      SortedCons(x, s, sortType);
    } else {
      BeforeTotal(x, s[0], sortType);
      InsertSorted(x, s[1..], sortType);
      HeadPrecedesInsertion(x, s, sortType);
      SortedCons(s[0], Insert(x, s[1..], sortType), sortType);
    }
  }

  /** The head of a sorted list may precede everything that inserting `x` into its tail gives. */
  lemma HeadPrecedesInsertion(x: Event, s: seq<Event>, sortType: SortType)
    requires s != [] && Sorted(s, sortType) && Before(s[0], x, sortType)
    ensures forall j :: 0 <= j < |Insert(x, s[1..], sortType)| ==> Before(s[0], Insert(x, s[1..], sortType)[j], sortType)
  {
    var rest := Insert(x, s[1..], sortType);
    forall j | 0 <= j < |rest| ensures Before(s[0], rest[j], sortType) {
      assert rest[j] in multiset(s[1..]) + multiset{x};
      if rest[j] != x {
        assert rest[j] in s[1..];
        var k :| 0 <= k < |s[1..]| && s[1..][k] == rest[j];
        assert s[k + 1] == rest[j];
      }
    }
  }

  /** An element that may precede every element of a sorted list can be put in front of it. */
  lemma SortedCons(h: Event, rest: seq<Event>, sortType: SortType)
    requires Sorted(rest, sortType)
    requires forall j :: 0 <= j < |rest| ==> Before(h, rest[j], sortType)
    ensures Sorted([h] + rest, sortType)
  {
    var r := [h] + rest;
    forall i, j | 0 <= i < j < |r| ensures Before(r[i], r[j], sortType) {
      if i > 0 {
        assert r[i] == rest[i - 1] && r[j] == rest[j - 1];
      }
    }
  }

  /** `[...filtered].sort(compare)`: an insertion sort, stable like the built-in one, on a copy. */
  function Sort(s: seq<Event>, sortType: SortType): (r: seq<Event>)
    ensures multiset(r) == multiset(s)
    ensures |r| == |s|
  {
    if s == [] then []
    else
      assert s == [s[0]] + s[1..];
      Insert(s[0], Sort(s[1..], sortType), sortType)
  }

  lemma {:induction false} SortSorted(s: seq<Event>, sortType: SortType)
    ensures Sorted(Sort(s, sortType), sortType)
  {
    if s != [] {
      SortSorted(s[1..], sortType);
      InsertSorted(s[0], Sort(s[1..], sortType), sortType);
    }
  }

  /** `filteredAndSortedEvents`. */
  function Visible(events: seq<Event>, query: string, selectedType: string, sortType: SortType): (r: seq<Event>)
    ensures multiset(r) == multiset(Filtered(events, query, selectedType))
  {
    Sort(Filtered(events, query, selectedType), sortType)
  }

  /**
   * What the listing shows: a reordering of the events that pass both filters, each once per
   * occurrence, in the chosen order.
   */
  lemma VisibleIsSortedSelection(events: seq<Event>, query: string, selectedType: string, sortType: SortType)
    ensures var r := Visible(events, query, selectedType, sortType);
      && multiset(r) == multiset(Filtered(events, query, selectedType))
      && multiset(r) <= multiset(events)
      && (forall e :: multiset(r)[e] == if Passes(e, query, selectedType) then multiset(events)[e] else 0)
      && |r| <= |events|
      && Sorted(r, sortType)
  {
    SortSorted(Filtered(events, query, selectedType), sortType);
    assert |multiset(Filtered(events, query, selectedType))| <= |multiset(events)|;
  }

  /** Membership in the listing, in both directions. */
  lemma VisibleMembers(events: seq<Event>, query: string, selectedType: string, sortType: SortType, e: Event)
    ensures e in Visible(events, query, selectedType, sortType) <==>
      && e in events
      && (selectedType == AllTypes || e.kind == selectedType)
      && (IsBlank(query) || MatchesQuery(e, Lower(query)))
  {
    TrimEmptyIffBlank(query);
    var f := Filtered(events, query, selectedType);
    assert e in Visible(events, query, selectedType, sortType) <==> e in multiset(f);
  }

  /** Newest first: under the date sort no listed event is older than one listed after it. */
  lemma DateSortNewestFirst(events: seq<Event>, query: string, selectedType: string, i: nat, j: nat)
    requires i < j < |Visible(events, query, selectedType, ByDate)|
    ensures Visible(events, query, selectedType, ByDate)[i].date >= Visible(events, query, selectedType, ByDate)[j].date
  {
    SortSorted(Filtered(events, query, selectedType), ByDate);
  }

  /** Under the title sort no listed title comes after a title listed below it. */
  lemma TitleSortAscending(events: seq<Event>, query: string, selectedType: string, i: nat, j: nat)
    requires i < j < |Visible(events, query, selectedType, Alphabetical)|
    ensures LexCompare(Visible(events, query, selectedType, Alphabetical)[i].title,
                       Visible(events, query, selectedType, Alphabetical)[j].title) <= 0
  {
    SortSorted(Filtered(events, query, selectedType), Alphabetical);
  }

  /** With a blank query and every type the listing is all the events, reordered. */
  lemma ShowsAllWhenUnfiltered(events: seq<Event>, query: string, sortType: SortType)
    requires IsBlank(query)
    ensures multiset(Visible(events, query, AllTypes, sortType)) == multiset(events)
  {
    FilteredAll(events, query);
  }

  // ---------------------------------------------------------------------------------------
  // The result count

  /** The noun after the count. */
  function EventWord(n: nat): (r: string)
    ensures r == "event" <==> n == 1
    ensures r == "events" <==> n != 1
  {
    "event" + (if n != 1 then "s" else "")
  }

  /** `{n} event{n !== 1 ? 's' : ''}`. */
  function CountLabel(n: nat): (r: string)
    ensures r == NatToString(n) + " " + EventWord(n)
  {
    NatToString(n) + " event" + (if n != 1 then "s" else "")
  }

  /** The count label reads back as the number it shows. */
  lemma CountLabelReadsBack(n: nat)
    ensures var text := CountLabel(n); var digits := NatToString(n);
      && text[..|digits|] == digits
      && DecimalValue(text[..|digits|]) == n
  {
    DecimalRoundTrip(n);
    assert CountLabel(n)[..|NatToString(n)|] == NatToString(n);
  }

  /** The listing's state: the loaded events and the three controls. */
  class EventsView {
    var events: seq<Event>
    var searchQuery: string
    var selectedType: string
    var sortType: SortType

    function Results(): seq<Event>
      reads this
    {
      Visible(events, searchQuery, selectedType, sortType)
    }

    /** The page once the events have been loaded, before any control has been used. */
    constructor(loaded: seq<Event>)
      ensures events == loaded && searchQuery == "" && selectedType == AllTypes && sortType == ByDate
      ensures multiset(Results()) == multiset(loaded)
    {
      events, searchQuery, selectedType, sortType := loaded, "", AllTypes, ByDate;
      new;
      TrimEmptyIffBlank("");
      ShowsAllWhenUnfiltered(loaded, "", ByDate);
    }

    method SetSearchQuery(query: string)
      modifies this`searchQuery
      ensures searchQuery == query
    {
      searchQuery := query;
    }

    method SetSelectedType(value: string)
      modifies this`selectedType
      ensures selectedType == value
    {
      selectedType := value;
    }

    method SetSortType(value: SortType)
      modifies this`sortType
      ensures sortType == value
    {
      sortType := value;
    }

    /** "Show All Events": clears the search and the type filter, keeps the sort. */
    method ShowAllEvents()
      modifies this`searchQuery, this`selectedType
      ensures searchQuery == "" && selectedType == AllTypes
      ensures multiset(Results()) == multiset(events)
    {
      ShowsAllWhenUnfiltered(events, "", sortType);
      searchQuery, selectedType := "", AllTypes;
    }
  }
}

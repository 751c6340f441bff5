/**
 * The notice board: the category/search view of the fetched notices, the
 * priority and category classifications used for display, and the priority
 * statistics.
 */
module Notices {
  import opened Seqs
  import opened Text

  /** The fields of a notice the page computes with (date and author are display-only). */
  datatype Notice = Notice(title: string, content: string, category: string, priority: string)

  /** The lowered search term occurs in the lowered title or the lowered content. */
  predicate MatchesSearch(n: Notice, searchTerm: string)
  {
    Includes(Lower(n.title), Lower(searchTerm)) || Includes(Lower(n.content), Lower(searchTerm))
  }

  /** `'all'` admits every category; anything else must be equal to the notice's category. */
  predicate MatchesCategory(n: Notice, selectedCategory: string)
  {
    selectedCategory == "all" || n.category == selectedCategory
  }

  function Matches(searchTerm: string, selectedCategory: string): Notice -> bool
  {
    (n: Notice) => MatchesSearch(n, searchTerm) && MatchesCategory(n, selectedCategory)
  }

  function MatchesSearchOnly(searchTerm: string): Notice -> bool
  {
    (n: Notice) => MatchesSearch(n, searchTerm)
  }

  /** `filteredNotices`: the notices that match, in fetched order. */
  function FilteredNotices(ns: seq<Notice>, searchTerm: string, selectedCategory: string): (r: seq<Notice>)
    ensures IsSubseq(r, ns)
    ensures forall n :: n in r ==> n in ns && MatchesSearch(n, searchTerm)
    ensures selectedCategory != "all" ==> forall n :: n in r ==> n.category == selectedCategory
    ensures forall n :: n in ns && Matches(searchTerm, selectedCategory)(n) ==> multiset(r)[n] == multiset(ns)[n]
  {
    FilterIsSubseq(ns, Matches(searchTerm, selectedCategory));
    Filter(ns, Matches(searchTerm, selectedCategory))
  }

  /** Under the category `'all'` only the search condition applies. */
  lemma AllCategoriesIsSearchOnly(ns: seq<Notice>, searchTerm: string)
    ensures FilteredNotices(ns, searchTerm, "all") == Filter(ns, MatchesSearchOnly(searchTerm))
  {
    FilterCongruent(ns, Matches(searchTerm, "all"), MatchesSearchOnly(searchTerm));
  }

  /** The initial view (empty search, category `'all'`) shows every notice. */
  lemma InitialViewShowsAll(ns: seq<Notice>)
    ensures FilteredNotices(ns, "", "all") == ns
  {
    forall i | 0 <= i < |ns| ensures Matches("", "all")(ns[i]) {
      IncludesEmpty(Lower(ns[i].title));
    }
    FilterAll(ns, Matches("", "all"));
  }

  /** A returned notice contains the search term in its title or content, ignoring ASCII case. */
  lemma SearchResultsContainTerm(ns: seq<Notice>, searchTerm: string, selectedCategory: string, n: Notice)
    requires n in FilteredNotices(ns, searchTerm, selectedCategory)
    ensures exists i :: OccursAt(Lower(n.title), Lower(searchTerm), i)
                     || OccursAt(Lower(n.content), Lower(searchTerm), i)
  {
    IncludesIffOccurs(Lower(n.title), Lower(searchTerm));
    IncludesIffOccurs(Lower(n.content), Lower(searchTerm));
  }

  /** The branch `getPriorityInfo` takes: its icon and border colour. */
  datatype PriorityStyle = HighStyle | MediumStyle | DefaultStyle

  /** `getPriorityInfo`. */
  function PriorityInfo(priority: string): (s: PriorityStyle)
    ensures s == HighStyle <==> priority == "high"
    ensures s == MediumStyle <==> priority == "medium"
    ensures s == DefaultStyle <==> priority != "high" && priority != "medium"
  {
    match priority
    case "high" => HighStyle
    case "medium" => MediumStyle
    case _ => DefaultStyle
  }

  /** The branch `getCategoryColor` takes. */
  datatype CategoryStyle =
    | ScheduleColor | RouteColor | HolidayColor | MaintenanceColor | SecurityColor | WeatherColor
    | DefaultColor

  /** The six categories with a branch of their own. */
  const KnownCategories: set<string> := {"schedule", "route", "holiday", "maintenance", "security", "weather"}

  /** `getCategoryColor`. */
  function CategoryColor(category: string): (s: CategoryStyle)
    ensures s == DefaultColor <==> category !in KnownCategories
  {
    match category
    case "schedule" => ScheduleColor
    case "route" => RouteColor
    case "holiday" => HolidayColor
    case "maintenance" => MaintenanceColor
    case "security" => SecurityColor
    case "weather" => WeatherColor
    case _ => DefaultColor
  }

  /** Distinct known categories take distinct branches. */
  lemma CategoryColorSeparatesKnown(c1: string, c2: string)
    requires c1 in KnownCategories && c2 in KnownCategories && c1 != c2
    ensures CategoryColor(c1) != CategoryColor(c2)
  {
  }

  function HasPriority(p: string): Notice -> bool
  {
    (n: Notice) => n.priority == p
  }

  /** The priority is none of the three the statistics count. */
  function HasUncountedPriority(): Notice -> bool
  {
    (n: Notice) => n.priority != "high" && n.priority != "medium" && n.priority != "normal"
  }

  /** `notices.filter(n => n.priority === p).length`. */
  function CountPriority(ns: seq<Notice>, p: string): nat
  {
    |Filter(ns, HasPriority(p))|
  }

  /** The priority of each notice, position by position. */
  function Priorities(ns: seq<Notice>): seq<string>
  {
    seq(|ns|, i requires 0 <= i < |ns| => ns[i].priority)
  }

  /** Counting by `filter` gives the number of notices whose priority is exactly `p`. */
  lemma {:induction false} CountPriorityIsMultiplicity(ns: seq<Notice>, p: string)
    ensures CountPriority(ns, p) == multiset(Priorities(ns))[p]
    decreases |ns|
  {
    if ns != [] {
      CountPriorityIsMultiplicity(ns[1..], p);
      assert Priorities(ns) == [ns[0].priority] + Priorities(ns[1..]);
    }
  }

  /** The four figures of the statistics panel. */
  datatype Statistics = Statistics(total: nat, high: nat, medium: nat, normal: nat)

  function NoticeStatistics(ns: seq<Notice>): (st: Statistics)
    ensures st.total == |ns|
    ensures st.high == multiset(Priorities(ns))["high"]
    ensures st.medium == multiset(Priorities(ns))["medium"]
    ensures st.normal == multiset(Priorities(ns))["normal"]
    ensures st.high + st.medium + st.normal <= st.total
    ensures st.high + st.medium + st.normal + |Filter(ns, HasUncountedPriority())| == st.total
  {
    PriorityCountsPartition(ns);
    CountPriorityIsMultiplicity(ns, "high");
    CountPriorityIsMultiplicity(ns, "medium");
    CountPriorityIsMultiplicity(ns, "normal");
    Statistics(|ns|, CountPriority(ns, "high"), CountPriority(ns, "medium"), CountPriority(ns, "normal"))
  }

  /**
   * Every notice is counted by at most one of the three priority figures, and
   * a notice with any other priority by none of them.
   */
  lemma {:induction false} PriorityCountsPartition(ns: seq<Notice>)
    ensures CountPriority(ns, "high") + CountPriority(ns, "medium") + CountPriority(ns, "normal")
            + |Filter(ns, HasUncountedPriority())| == |ns|
    decreases |ns|
  {
    if ns != [] {
      PriorityCountsPartition(ns[1..]);
    }
  }

  /**
   * A notice with an unknown priority is drawn like a normal one but is not
   * counted as normal.
   */
  lemma UnknownPriorityLooksNormalButIsNotCounted(n: Notice)
    requires n.priority == "low"
    ensures PriorityInfo(n.priority) == PriorityInfo("normal")
    ensures NoticeStatistics([n]) == Statistics(1, 0, 0, 0)
  {
    assert [n][1..] == [];
  }
}

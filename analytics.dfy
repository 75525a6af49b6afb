/** The analytics dashboard: completed challenges looked up by id, a
    seven-day streak chart derived from the current streak, and the
    per-category breakdown of completed challenges. */
module AnalyticsCore {
  import opened Models
  import opened Dependencies

  /** The number of days the streak chart shows, today included. */
  const DaysToShow: nat := 7

  // ---------------------------------------------------------------- lookup

  /** Challenge.samples.first(where: id matches). */
  function FirstWithId(catalog: seq<Challenge>, id: ChallengeId): (r: Option<Challenge>)
    ensures r.Some? ==> r.value in catalog && r.value.id == id
    ensures r.None? <==> forall k :: 0 <= k < |catalog| ==> catalog[k].id != id
  {
    if catalog == [] then None
    else if catalog[0].id == id then Some(catalog[0])
    else FirstWithId(catalog[1..], id)
  }

  /** completedChallenges.compactMap: each id's catalog entry, in order,
      with ids the catalog lacks dropped. */
  function LookupCompleted(ids: seq<ChallengeId>, catalog: seq<Challenge>): (r: seq<Challenge>)
    ensures |r| <= |ids|
    ensures forall x :: x in r ==> x in catalog && x.id in ids
  {
    if ids == [] then []
    else
      var rest := LookupCompleted(ids[1..], catalog);
      match FirstWithId(catalog, ids[0])
      case Some(x) => [x] + rest
      case None => rest
  }

  /** An id the catalog lacks is dropped; a known one contributes its entry. */
  lemma {:induction false} LookupAppend(ids: seq<ChallengeId>, id: ChallengeId, catalog: seq<Challenge>)
    ensures LookupCompleted(ids + [id], catalog)
            == LookupCompleted(ids, catalog)
               + (match FirstWithId(catalog, id) case Some(x) => [x] case None => [])
    decreases |ids|
  {
    if ids == [] {
      assert [id][1..] == [];
    } else {
      assert (ids + [id])[0] == ids[0];
      assert (ids + [id])[1..] == ids[1..] + [id];
      LookupAppend(ids[1..], id, catalog);
    }
  }

  /** When every id is in the catalog, nothing is dropped and the k-th
      result is the entry with the k-th id. */
  lemma {:induction false} LookupKnown(ids: seq<ChallengeId>, catalog: seq<Challenge>)
    requires forall k :: 0 <= k < |ids| ==> FirstWithId(catalog, ids[k]).Some?
    ensures |LookupCompleted(ids, catalog)| == |ids|
    ensures forall k :: 0 <= k < |ids| ==> LookupCompleted(ids, catalog)[k].id == ids[k]
  {
    if ids != [] {
      assert FirstWithId(catalog, ids[0]).Some?;
      assert forall k :: 0 <= k < |ids[1..]| ==> ids[1..][k] == ids[k + 1];
      LookupKnown(ids[1..], catalog);
    }
  }

  /** Ids in the built-in catalog (0 to 5) are never dropped. */
  lemma CatalogIdsKnown(ids: seq<ChallengeId>)
    requires forall k :: 0 <= k < |ids| ==> ids[k] < |Catalog()|
    ensures |LookupCompleted(ids, Catalog())| == |ids|
    ensures forall k :: 0 <= k < |ids| ==> LookupCompleted(ids, Catalog())[k] == Catalog()[ids[k]]
  {
    CatalogIdsAreIndices();
    forall k | 0 <= k < |ids|
      ensures FirstWithId(Catalog(), ids[k]).Some?
    {
      assert Catalog()[ids[k]].id == ids[k];
    }
    LookupKnown(ids, Catalog());
    var r := LookupCompleted(ids, Catalog());
    forall k | 0 <= k < |ids|
      ensures r[k] == Catalog()[ids[k]]
    {
      assert r[k] in r;
      CatalogEntryById(r[k]);
    }
  }

  // --------------------------------------------------- ids across launches

  /** The entries of `cs` with every id moved up by `offset`. */
  function Relabel(cs: seq<Challenge>, offset: nat): (r: seq<Challenge>)
    ensures |r| == |cs|
    ensures forall k :: 0 <= k < |cs| ==> r[k] == cs[k].(id := cs[k].id + offset)
  {
    if cs == [] then [] else [cs[0].(id := cs[0].id + offset)] + Relabel(cs[1..], offset)
  }

  /** The catalog as launch number `launch` of the program builds it. Each
      sample's id is a UUID drawn when the catalog is first built in a
      process, so every launch has its own ids; here launch n numbers its
      entries 6n to 6n + 5. */
  function LaunchCatalog(launch: nat): seq<Challenge> {
    Relabel(Catalog(), 6 * launch)
  }

  /** Ids the catalog lacks contribute nothing. */
  lemma {:induction false} LookupAllMissing(ids: seq<ChallengeId>, catalog: seq<Challenge>)
    requires forall k :: 0 <= k < |ids| ==> FirstWithId(catalog, ids[k]).None?
    ensures LookupCompleted(ids, catalog) == []
  {
    if ids != [] {
      assert FirstWithId(catalog, ids[0]).None?;
      assert forall k :: 0 <= k < |ids[1..]| ==> ids[1..][k] == ids[k + 1];
      LookupAllMissing(ids[1..], catalog);
    }
  }

  /** The first launch numbers the entries as the stable catalog does. */
  lemma FirstLaunchCatalog()
    ensures LaunchCatalog(0) == Catalog()
  {
    var c := LaunchCatalog(0);
    assert forall k :: 0 <= k < |c| ==> c[k] == Catalog()[k];
  }

  /** No id of the first launch is an id of the second. */
  lemma SecondLaunchMisses(ids: seq<ChallengeId>)
    requires forall k :: 0 <= k < |ids| ==> ids[k] < |Catalog()|
    ensures forall k :: 0 <= k < |ids| ==> FirstWithId(LaunchCatalog(1), ids[k]).None?
  {
    var later := LaunchCatalog(1);
    CatalogIdsAreIndices();
    assert forall j :: 0 <= j < |later| ==> later[j].id >= 6;
  }

  /** With per-launch ids, the completions recorded during the first launch
      are all found while it runs, and none of them is found once the
      program has been restarted: the dashboard then lists no completed
      challenge, whatever the stored history holds. */
  lemma RelaunchDropsHistory(ids: seq<ChallengeId>)
    requires forall k :: 0 <= k < |ids| ==> ids[k] < |Catalog()|
    ensures |LookupCompleted(ids, LaunchCatalog(0))| == |ids|
    ensures LookupCompleted(ids, LaunchCatalog(1)) == []
  {
    FirstLaunchCatalog();
    CatalogIdsKnown(ids);
    SecondLaunchMisses(ids);
    LookupAllMissing(ids, LaunchCatalog(1));
  }

  // --------------------------------------------------------- streak chart

  /** The chart value for `daysAgo` days before today (0 is today). */
  function HistoryEntry(currentStreak: int, daysAgo: int): int {
    if daysAgo == 0 then currentStreak
    else if daysAgo <= currentStreak then currentStreak - daysAgo
    else 0
  }

  /** The seven chart values, oldest first. */
  function StreakHistory(currentStreak: int): (r: seq<int>)
    ensures |r| == DaysToShow
  {
    [ HistoryEntry(currentStreak, 6), HistoryEntry(currentStreak, 5), HistoryEntry(currentStreak, 4),
      HistoryEntry(currentStreak, 3), HistoryEntry(currentStreak, 2), HistoryEntry(currentStreak, 1),
      HistoryEntry(currentStreak, 0) ]
  }

  /** generateStreakHistory(currentStreak:): walks from six days ago to
      today, appending each day's value. */
  method GenerateStreakHistory(currentStreak: int) returns (history: seq<int>)
    ensures history == StreakHistory(currentStreak)
  {
    history := [];
    var i := DaysToShow;
    while i > 0
      invariant 0 <= i <= DaysToShow
      invariant |history| == DaysToShow - i
      invariant forall k :: 0 <= k < |history| ==>
                  history[k] == HistoryEntry(currentStreak, DaysToShow - 1 - k)
    {
      i := i - 1;
      if i == 0 {
        history := history + [currentStreak];
      } else if i <= currentStreak {
        history := history + [currentStreak - i];
      } else {
        history := history + [0];
      }
    }
  }

  /** Today's value (the last) is the current streak; entry k, which is
      i = 6 - k days back (1 to 6), shows the streak as it was then, or 0
      before the streak began. */
  lemma StreakHistoryEntries(n: int)
    ensures StreakHistory(n)[DaysToShow - 1] == n
    ensures forall k :: 0 <= k < DaysToShow - 1 ==>
              StreakHistory(n)[k] == (if DaysToShow - 1 - k <= n then n - (DaysToShow - 1 - k) else 0)
  {
  }

  /** For a non-negative streak the chart never dips below zero and never
      goes down from one day to the next. */
  lemma StreakHistoryMonotone(n: int)
    requires n >= 0
    ensures forall k :: 0 <= k < DaysToShow ==> StreakHistory(n)[k] >= 0
    ensures forall j, k :: 0 <= j <= k < DaysToShow ==> StreakHistory(n)[j] <= StreakHistory(n)[k]
  {
    var h := StreakHistory(n);
    forall j, k | 0 <= j <= k < DaysToShow
      ensures h[j] <= h[k]
    {
      assert h[j] == HistoryEntry(n, DaysToShow - 1 - j);
      assert h[k] == HistoryEntry(n, DaysToShow - 1 - k);
    }
  }

  /** A three-day streak charts as 0, 0, 0, 0, 1, 2, 3. */
  lemma StreakHistoryOfThree()
    ensures StreakHistory(3) == [0, 0, 0, 0, 1, 2, 3]
  {
    var h := StreakHistory(3);
    assert h[0] == 0 && h[1] == 0 && h[2] == 0 && h[3] == 0;
    assert h[4] == 1 && h[5] == 2 && h[6] == 3;
  }

  // ------------------------------------------------------ category stats

  /** Category.allCases, in declaration order. */
  function CategoryOrder(): (r: seq<Category>)
    ensures forall c: Category :: c in r
    ensures forall i, j :: 0 <= i < j < |r| ==> r[i] != r[j]
  {
    var r := [Fitness, Creativity, Mindfulness, Learning, Social];
    assert forall c: Category :: c in r by {
      forall c: Category ensures c in r {
        if c.Fitness? {} else if c.Creativity? {} else if c.Mindfulness? {} else if c.Learning? {} else {}
      }
    }
    r
  }

  /** How many of `cs` are in category `c`. */
  function CountOf(cs: seq<Challenge>, c: Category): (n: nat)
    ensures n <= |cs|
    ensures n > 0 <==> exists k :: 0 <= k < |cs| && cs[k].category == c
  {
    if cs == [] then 0
    else
      var rest := CountOf(cs[1..], c);
      assert forall k :: 1 <= k < |cs| ==> cs[k] == cs[1..][k - 1];
      (if cs[0].category == c then 1 else 0) + rest
  }

  /** How many of `cs` have a category listed in `cats`. */
  function CountWhere(cs: seq<Challenge>, cats: seq<Category>): nat {
    if cs == [] then 0
    else (if cs[0].category in cats then 1 else 0) + CountWhere(cs[1..], cats)
  }

  /** Dictionary(grouping:by:) mapped to (category, count) pairs: one pair
      per listed category that occurs, in the listed order. */
  function Grouped(cs: seq<Challenge>, cats: seq<Category>): (r: seq<(Category, nat)>)
    ensures forall p :: p in r ==> p.0 in cats && p.1 == CountOf(cs, p.0) && p.1 > 0
    ensures forall c :: c in cats && CountOf(cs, c) > 0 ==> (c, CountOf(cs, c)) in r
  {
    if cats == [] then []
    else
      var rest := Grouped(cs, cats[1..]);
      if CountOf(cs, cats[0]) > 0 then [(cats[0], CountOf(cs, cats[0]))] + rest else rest
  }

  predicate DistinctKeys(s: seq<(Category, nat)>) {
    forall i, j :: 0 <= i < j < |s| ==> s[i].0 != s[j].0
  }

  predicate ByCountDescending(s: seq<(Category, nat)>) {
    forall i, j :: 0 <= i < j < |s| ==> s[i].1 >= s[j].1
  }

  function Total(s: seq<(Category, nat)>): nat {
    if s == [] then 0 else s[0].1 + Total(s[1..])
  }

  /** Listing distinct categories gives distinct keys. */
  lemma {:induction false} GroupedDistinct(cs: seq<Challenge>, cats: seq<Category>)
    requires forall i, j :: 0 <= i < j < |cats| ==> cats[i] != cats[j]
    ensures DistinctKeys(Grouped(cs, cats))
  {
    if cats != [] {
      var tail := cats[1..];
      assert forall i, j :: 0 <= i < j < |tail| ==> tail[i] != tail[j] by {
        forall i, j | 0 <= i < j < |tail| ensures tail[i] != tail[j] {
          assert tail[i] == cats[i + 1] && tail[j] == cats[j + 1];
        }
      }
      GroupedDistinct(cs, tail);
      assert cats[0] !in tail;
    }
  }

  /** Counting against a category list splits into its head and its tail. */
  lemma {:induction false} CountWhereCons(cs: seq<Challenge>, c: Category, cats: seq<Category>)
    requires c !in cats
    ensures CountWhere(cs, [c] + cats) == CountOf(cs, c) + CountWhere(cs, cats)
  {
    if cs != [] {
      CountWhereCons(cs[1..], c, cats);
    }
  }

  /** The pairs' counts add up to the challenges whose category is listed. */
  lemma {:induction false} GroupedTotal(cs: seq<Challenge>, cats: seq<Category>)
    requires forall i, j :: 0 <= i < j < |cats| ==> cats[i] != cats[j]
    ensures Total(Grouped(cs, cats)) == CountWhere(cs, cats)
  {
    if cats == [] {
      assert CountWhere(cs, cats) == 0 by { CountWhereNone(cs); }
    } else {
      var tail := cats[1..];
      assert forall i, j :: 0 <= i < j < |tail| ==> tail[i] != tail[j] by {
        forall i, j | 0 <= i < j < |tail| ensures tail[i] != tail[j] {
          assert tail[i] == cats[i + 1] && tail[j] == cats[j + 1];
        }
      }
      GroupedTotal(cs, tail);
      assert cats == [cats[0]] + tail;
      CountWhereCons(cs, cats[0], tail);
      var rest := Grouped(cs, tail);
      if CountOf(cs, cats[0]) > 0 {
        assert ([(cats[0], CountOf(cs, cats[0]))] + rest)[1..] == rest;
      }
    }
  }

  lemma {:induction false} CountWhereNone(cs: seq<Challenge>)
    ensures CountWhere(cs, []) == 0
  {
    if cs != [] {
      CountWhereNone(cs[1..]);
    }
  }

  /** Listing every category counts every challenge. */
  lemma {:induction false} CountWhereAll(cs: seq<Challenge>)
    ensures CountWhere(cs, CategoryOrder()) == |cs|
  {
    if cs != [] {
      CountWhereAll(cs[1..]);
    }
  }

  /** Inserts a pair into a list sorted by non-increasing count. */
  function InsertByCount(x: (Category, nat), s: seq<(Category, nat)>): (r: seq<(Category, nat)>)
    requires ByCountDescending(s)
    ensures |r| == |s| + 1
    ensures r[0] == x || (s != [] && r[0] == s[0])
    ensures ByCountDescending(r)
    ensures multiset(r) == multiset(s) + multiset{x}
  {
    if s == [] || x.1 >= s[0].1 then [x] + s
    else
      assert s == [s[0]] + s[1..];
      [s[0]] + InsertByCount(x, s[1..])
  }

  /** Sorts pairs by non-increasing count. */
  function SortByCount(s: seq<(Category, nat)>): (r: seq<(Category, nat)>)
    ensures ByCountDescending(r)
    ensures multiset(r) == multiset(s)
  {
    if s == [] then []
    else
      assert s == [s[0]] + s[1..];
      InsertByCount(s[0], SortByCount(s[1..]))
  }

  /** Inserting adds the pair's count to the total. */
  lemma {:induction false} InsertTotal(x: (Category, nat), s: seq<(Category, nat)>)
    requires ByCountDescending(s)
    ensures Total(InsertByCount(x, s)) == x.1 + Total(s)
  {
    if s == [] || x.1 >= s[0].1 {
      assert ([x] + s)[1..] == s;
    } else {
      var rest := InsertByCount(x, s[1..]);
      InsertTotal(x, s[1..]);
      assert ([s[0]] + rest)[1..] == rest;
    }
  }

  /** Inserting a pair whose key is new keeps the keys distinct. */
  lemma {:induction false} InsertDistinct(x: (Category, nat), s: seq<(Category, nat)>)
    requires ByCountDescending(s) && DistinctKeys(s)
    requires forall p :: p in s ==> p.0 != x.0
    ensures DistinctKeys(InsertByCount(x, s))
  {
    if s == [] || x.1 >= s[0].1 {
      var r := [x] + s;
      forall i, j | 0 <= i < j < |r| ensures r[i].0 != r[j].0 {
        assert r[j] == s[j - 1];
        if i > 0 {
          assert r[i] == s[i - 1];
        }
      }
    } else {
      var tail := s[1..];
      assert DistinctKeys(tail) by {
        forall i, j | 0 <= i < j < |tail| ensures tail[i].0 != tail[j].0 {
          assert tail[i] == s[i + 1] && tail[j] == s[j + 1];
        }
      }
      InsertDistinct(x, tail);
      var rest := InsertByCount(x, tail);
      var r := [s[0]] + rest;
      forall i, j | 0 <= i < j < |r| ensures r[i].0 != r[j].0 {
        assert r[j] == rest[j - 1];
        if i == 0 {
          var q := rest[j - 1];
          assert q in multiset(rest);
          if q != x {
            assert q in tail;
            var m :| 0 <= m < |tail| && tail[m] == q;
            assert q == s[m + 1];
          }
        } else {
          assert r[i] == rest[i - 1];
        }
      }
    }
  }

  /** Sorting keeps the total. */
  lemma {:induction false} SortTotal(s: seq<(Category, nat)>)
    ensures Total(SortByCount(s)) == Total(s)
  {
    if s != [] {
      SortTotal(s[1..]);
      InsertTotal(s[0], SortByCount(s[1..]));
    }
  }

  /** Sorting keeps distinct keys distinct. */
  lemma {:induction false} SortDistinct(s: seq<(Category, nat)>)
    requires DistinctKeys(s)
    ensures DistinctKeys(SortByCount(s))
  {
    if s != [] {
      var tail := s[1..];
      assert DistinctKeys(tail) by {
        forall i, j | 0 <= i < j < |tail| ensures tail[i].0 != tail[j].0 {
          assert tail[i] == s[i + 1] && tail[j] == s[j + 1];
        }
      }
      SortDistinct(tail);
      var rest := SortByCount(tail);
      forall p | p in rest ensures p.0 != s[0].0 {
        assert p in multiset(tail);
        var m :| 0 <= m < |tail| && tail[m] == p;
        assert p == s[m + 1];
      }
      InsertDistinct(s[0], rest);
    }
  }

  /** CategoryBreakdownView.categoryStats: (category, count) pairs for the
      categories of the completed challenges, most frequent first. */
  function CategoryStats(cs: seq<Challenge>): seq<(Category, nat)> {
    SortByCount(Grouped(cs, CategoryOrder()))
  }

  /** A permutation has the same elements. */
  lemma SameMembers(r: seq<(Category, nat)>, g: seq<(Category, nat)>)
    requires multiset(r) == multiset(g)
    ensures forall p :: p in r <==> p in g
  {
    forall p ensures p in r <==> p in g {
      assert p in r <==> p in multiset(r);
      assert p in g <==> p in multiset(g);
    }
  }

  /** The grouped pairs, sorted: distinct keys, non-increasing counts, and
      counts adding up to the number of challenges. */
  lemma CategoryStatsShape(cs: seq<Challenge>)
    ensures ByCountDescending(CategoryStats(cs))
    ensures DistinctKeys(CategoryStats(cs))
    ensures Total(CategoryStats(cs)) == |cs|
  {
    var g := Grouped(cs, CategoryOrder());
    GroupedDistinct(cs, CategoryOrder());
    GroupedTotal(cs, CategoryOrder());
    CountWhereAll(cs);
    SortTotal(g);
    SortDistinct(g);
  }

  /** The pairs are exactly those of the occurring categories with their counts. */
  lemma CategoryStatsPairs(cs: seq<Challenge>)
    ensures forall p :: p in CategoryStats(cs) ==> p.1 == CountOf(cs, p.0) && p.1 > 0
    ensures forall k :: 0 <= k < |cs| ==> (cs[k].category, CountOf(cs, cs[k].category)) in CategoryStats(cs)
  {
    var g := Grouped(cs, CategoryOrder());
    SameMembers(CategoryStats(cs), g);
    forall k | 0 <= k < |cs|
      ensures (cs[k].category, CountOf(cs, cs[k].category)) in g
    {
      assert CountOf(cs, cs[k].category) > 0;
    }
  }

  /** One pair per category that occurs, carrying that category's count;
      counts never increase along the list and add up to the number of
      challenges. */
  lemma CategoryStatsCorrect(cs: seq<Challenge>)
    ensures ByCountDescending(CategoryStats(cs))
    ensures DistinctKeys(CategoryStats(cs))
    ensures forall p :: p in CategoryStats(cs) ==> p.1 == CountOf(cs, p.0) && p.1 > 0
    ensures forall k :: 0 <= k < |cs| ==> (cs[k].category, CountOf(cs, cs[k].category)) in CategoryStats(cs)
    ensures Total(CategoryStats(cs)) == |cs|
  {
    CategoryStatsShape(cs);
    CategoryStatsPairs(cs);
  }

  // ------------------------------------------------------------- reducer

  datatype Action =
    | OnAppear
    | ReloadData
    | UpdateData(completed: seq<Challenge>, streaks: seq<int>)

  datatype Effect = NoEffect | Send(action: Action)

  class AnalyticsEngine {
    const storage: Storage
    var completedChallenges: seq<Challenge>
    var streakHistory: seq<int>

    constructor (storage: Storage)
      ensures this.storage == storage
      ensures completedChallenges == [] && streakHistory == []
    {
      this.storage := storage;
      completedChallenges := [];
      streakHistory := [];
    }

    /** onAppear and reloadData: with a stored profile, sends the looked-up
        challenges and the streak chart; without one, does nothing. The
        state itself is not touched. */
    method Reload() returns (e: Effect)
      ensures storage.profile.Some? ==>
                e == Send(Action.UpdateData(LookupCompleted(storage.profile.value.completedChallenges, Catalog()),
                                     StreakHistory(storage.profile.value.streakCount)))
      ensures storage.profile.None? ==> e == NoEffect
    {
      if storage.profile.None? {
        return NoEffect;
      }
      var profile := storage.profile.value;
      var completed := LookupCompleted(profile.completedChallenges, Catalog());
      var history := GenerateStreakHistory(profile.streakCount);
      e := Send(Action.UpdateData(completed, history));
    }

    /** Overwrites both fields with exactly the values delivered. */
    method UpdateData(completed: seq<Challenge>, streaks: seq<int>) returns (e: Effect)
      modifies this`completedChallenges, this`streakHistory
      ensures completedChallenges == completed && streakHistory == streaks
      ensures e == NoEffect
    {
      completedChallenges := completed;
      streakHistory := streaks;
      e := NoEffect;
    }

    /** The reducer: dispatches an action to its transition. */
    method Reduce(a: Action) returns (e: Effect)
      modifies this
      ensures !a.UpdateData? ==> unchanged(this)
      ensures a.UpdateData? ==> completedChallenges == a.completed && streakHistory == a.streaks
    {
      match a
      case OnAppear => e := Reload();
      case ReloadData => e := Reload();
      case UpdateData(completed, streaks) => e := UpdateData(completed, streaks);
    }
  }
}

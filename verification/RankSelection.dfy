/** The dashboard's investment leader: the best-placed actionable opportunity of the newest complete
ranking run.  Strings that are only compared are numbers; scores are finite.
*/
module RankSelection {
  import opened Contracts
  import opened Ordering

  /** A rank as the server sends it: what does not parse or is blank is absent. */
  datatype RawRank = RawRank(
    opportunity: nat, book: Option<nat>, runId: nat, trimmedRunId: Option<nat>, knownAt: Option<int>,
    position: Option<real>, itemCount: Option<int>, complete: Option<bool>, score: real)

  datatype Rank = Rank(
    opportunity: nat, book: nat, runId: nat, trimmedRunId: nat, knownAt: int, position: real, itemCount: int,
    complete: bool, score: real)

  datatype Opportunity = Opportunity(id: nat, actionable: bool)

  datatype Key = Key(book: nat, run: nat)

  /** One entry of the map of runs. */
  datatype Entry = Entry(key: Key, ranks: seq<Rank>)

  function Normalized(r: RawRank): Option<Rank> {
    if r.knownAt.Some? && r.position.Some? && r.position.value >= 1.0 && r.itemCount.Some? && r.itemCount.value >= 1
       && r.complete.Some? && r.book.Some? && r.trimmedRunId.Some?
    then Some(Rank(r.opportunity, r.book.value, r.runId, r.trimmedRunId.value, r.knownAt.value, r.position.value,
                   r.itemCount.value, r.complete.value, r.score))
    else None
  }

  function NormalizedRanks(raw: seq<RawRank>): seq<Rank> {
    if raw == [] then []
    else
      var rank := Normalized(raw[|raw| - 1]);
      NormalizedRanks(raw[..|raw| - 1]) + if rank.Some? then [rank.value] else []
  }

  function KeyOf(r: Rank): Key {
    Key(r.book, r.trimmedRunId)
  }

  function Group(ranks: seq<Rank>, key: Key): seq<Rank> {
    if ranks == [] then []
    else
      var last := ranks[|ranks| - 1];
      Group(ranks[..|ranks| - 1], key) + if KeyOf(last) == key then [last] else []
  }

  // ---- Complete runs ----------------------------------------------------------------------

  function Positions(g: seq<Rank>): seq<real> {
    seq(|g|, i requires 0 <= i < |g| => g[i].position)
  }

  function Opportunities(g: seq<Rank>): seq<nat> {
    seq(|g|, i requires 0 <= i < |g| => g[i].opportunity)
  }

  function RunIds(g: seq<Rank>): seq<nat> {
    seq(|g|, i requires 0 <= i < |g| => g[i].runId)
  }

  function Books(g: seq<Rank>): seq<nat> {
    seq(|g|, i requires 0 <= i < |g| => g[i].book)
  }

  predicate AtMost(x: real, y: real) {
    x <= y
  }

  /** `completeRankRun`. */
  predicate CompleteRankRun(g: seq<Rank>) {
    var positions := Sorted(Positions(g), AtMost);
    && g != []
    && (forall i | 0 <= i < |g| :: g[i].complete)
    && |Elements(RunIds(g))| == 1
    && |Elements(Opportunities(g))| == |g|
    && |Elements(Books(g))| == 1
    && (forall i | 0 <= i < |g| :: g[i].itemCount == |g|)
    && (forall i | 0 <= i < |positions| :: positions[i] == (i + 1) as real)
  }

  predicate Takes(r: Rank, k: int) {
    r.position == k as real
  }

  ghost predicate Placed(g: seq<Rank>, k: int) {
    exists r :: r in g && Takes(r, k)
  }

  /** Each opportunity takes exactly one place, and each place from 1 to n is taken by exactly one. */
  ghost predicate IsBijection(g: seq<Rank>) {
    && (forall i, j | 0 <= i < j < |g| :: g[i].opportunity != g[j].opportunity && g[i].position != g[j].position)
    && (forall r | r in g :: exists k :: 1 <= k <= |g| && Takes(r, k))
    && (forall k | 1 <= k <= |g| :: Placed(g, k))
  }

  /** One finished run of one book that says how long it is. */
  ghost predicate IsOneRun(g: seq<Rank>) {
    && g != []
    && (forall r | r in g :: r.complete && r.itemCount == |g|)
    && (forall r, s | r in g && s in g :: r.runId == s.runId && r.book == s.book)
  }

  function Places(n: nat): seq<real> {
    seq(n, i => (i + 1) as real)
  }

  lemma AtMostTotal()
    ensures TotalOrder(AtMost)
  {
  }

  lemma SortedPositions(p: seq<real>)
    ensures multiset(Sorted(p, AtMost)) == multiset(p) && InOrder(Sorted(p, AtMost), AtMost)
  {
    AtMostTotal();
    SortedIsSorted(p, AtMost);
  }

  lemma {:induction false} RepeatsShow<T(!new)>(s: seq<T>)
    ensures NoRepeats(s) <==> forall x | x in multiset(s) :: multiset(s)[x] == 1
  {
    if s != [] {
      var front, last := s[..|s| - 1], s[|s| - 1];
      RepeatsShow(front);
      assert s == front + [last];
      assert multiset(s) == multiset(front) + multiset{last};
      if NoRepeats(s) {
        assert last !in front;
        assert last !in multiset(front);
        forall x | x in multiset(s)
          ensures multiset(s)[x] == 1
        {
          assert x != last ==> x in multiset(front);
        }
      } else {
        if NoRepeats(front) {
          assert last in front;
          assert last in multiset(front) && multiset(s)[last] >= 2;
        } else {
          var x :| x in multiset(front) && multiset(front)[x] != 1;
          assert multiset(s)[x] >= 2;
        }
      }
    }
  }

  lemma SameMultisetNoRepeats<T(!new)>(s: seq<T>, t: seq<T>)
    requires multiset(s) == multiset(t) && NoRepeats(s)
    ensures NoRepeats(t)
  {
    RepeatsShow(s);
    RepeatsShow(t);
  }

  lemma SubmultisetEqual<T>(a: multiset<T>, b: multiset<T>)
    requires a <= b && |a| == |b|
    ensures a == b
  {
    assert b == a + (b - a);
  }

  predicate Has(p: seq<real>, k: int) {
    k as real in p
  }

  ghost predicate HasPlaces(p: seq<real>) {
    forall k | 1 <= k <= |p| :: Has(p, k)
  }

  lemma PlacesHas(n: nat)
    ensures forall k | 1 <= k <= n :: Has(Places(n), k)
  {
    forall k | 1 <= k <= n
      ensures Has(Places(n), k)
    {
      assert Places(n)[k - 1] == k as real;
    }
  }

  /** Sorted positions that read 1, 2, ..., n are those numbers, each once. */
  lemma SortedPlaces(p: seq<real>)
    requires Sorted(p, AtMost) == Places(|p|)
    ensures HasPlaces(p) && NoRepeats(p) && multiset(p) == multiset(Places(|p|))
  {
    SortedPositions(p);
    PlacesHas(|p|);
    forall k | 1 <= k <= |p|
      ensures Has(p, k)
    {
      assert Has(Places(|p|), k);
      SameMultisetIn(Places(|p|), p, k as real);
    }
    PlacesApart(|p|);
    SameMultisetNoRepeats(Places(|p|), p);
  }

  lemma PlacesApart(n: nat)
    ensures NoRepeats(Places(n))
  {
  }

  lemma PlacesWithin(p: seq<real>)
    requires HasPlaces(p)
    ensures multiset(Places(|p|)) == multiset(p)
  {
    var places := Places(|p|);
    RepeatsShow(places);
    forall x | x in multiset(places)
      ensures multiset(places)[x] <= multiset(p)[x]
    {
      var i :| 0 <= i < |places| && places[i] == x;
      assert Has(p, i + 1);
      assert x in multiset(p);
    }
    assert |multiset(places)| == |places| && |multiset(p)| == |p|;
    SubmultisetEqual(multiset(places), multiset(p));
  }

  /** And n positions that include 1, 2, ..., n read just that when sorted. */
  lemma PlacesSorted(p: seq<real>)
    requires HasPlaces(p)
    ensures Sorted(p, AtMost) == Places(|p|)
  {
    AtMostTotal();
    SortedPositions(p);
    PlacesWithin(p);
    OneOrder(Sorted(p, AtMost), Places(|p|), AtMost);
  }

  lemma OneElementIff<T(!new)>(s: seq<T>)
    requires s != []
    ensures |Elements(s)| == 1 <==> forall x, y | x in s && y in s :: x == y
  {
    var x := s[0];
    assert x in Elements(s);
    if |Elements(s)| == 1 {
      assert |Elements(s) - {x}| == 0;
      forall y | y in s
        ensures y == x
      {
        assert y in Elements(s);
      }
    }
    if forall x, y | x in s && y in s :: x == y {
      assert forall y | y in Elements(s) :: y == x;
      assert Elements(s) == {x};
    }
  }

  lemma SameRunIff(g: seq<Rank>)
    requires g != []
    ensures |Elements(RunIds(g))| == 1 && |Elements(Books(g))| == 1 <==>
            forall r, s | r in g && s in g :: r.runId == s.runId && r.book == s.book
  {
    OneElementIff(RunIds(g));
    OneElementIff(Books(g));
    assert forall i | 0 <= i < |g| :: RunIds(g)[i] == g[i].runId && Books(g)[i] == g[i].book;
    if forall r, s | r in g && s in g :: r.runId == s.runId && r.book == s.book {
      forall x, y | x in RunIds(g) && y in RunIds(g)
        ensures x == y
      {
        var i :| 0 <= i < |g| && RunIds(g)[i] == x;
        var j :| 0 <= j < |g| && RunIds(g)[j] == y;
        assert g[i] in g && g[j] in g;
      }
      forall x, y | x in Books(g) && y in Books(g)
        ensures x == y
      {
        var i :| 0 <= i < |g| && Books(g)[i] == x;
        var j :| 0 <= j < |g| && Books(g)[j] == y;
        assert g[i] in g && g[j] in g;
      }
    }
    if && (forall x, y | x in RunIds(g) && y in RunIds(g) :: x == y)
       && (forall x, y | x in Books(g) && y in Books(g) :: x == y) {
      forall r, s | r in g && s in g
        ensures r.runId == s.runId && r.book == s.book
      {
        var i :| 0 <= i < |g| && g[i] == r;
        var j :| 0 <= j < |g| && g[j] == s;
        assert RunIds(g)[i] in RunIds(g) && RunIds(g)[j] in RunIds(g);
        assert Books(g)[i] in Books(g) && Books(g)[j] in Books(g);
      }
    }
  }

  lemma PlacesOfGroup(g: seq<Rank>)
    ensures HasPlaces(Positions(g)) <==> forall k | 1 <= k <= |g| :: Placed(g, k)
  {
    forall k | 1 <= k <= |g|
      ensures Has(Positions(g), k) <==> Placed(g, k)
    {
      if Has(Positions(g), k) {
        var i :| 0 <= i < |g| && Positions(g)[i] == k as real;
        assert g[i] in g && Takes(g[i], k);
      }
      if Placed(g, k) {
        var r :| r in g && Takes(r, k);
        var i :| 0 <= i < |g| && g[i] == r;
        assert Positions(g)[i] == k as real;
      }
    }
  }

  predicate OpportunitiesApart(g: seq<Rank>) {
    forall i, j | 0 <= i < j < |g| :: g[i].opportunity != g[j].opportunity
  }

  lemma OpportunitiesApartIff(g: seq<Rank>)
    ensures |Elements(Opportunities(g))| == |g| <==> OpportunitiesApart(g)
  {
    CountIffNoRepeats(Opportunities(g));
    assert forall i | 0 <= i < |g| :: Opportunities(g)[i] == g[i].opportunity;
  }

  predicate ReadsPlaces(g: seq<Rank>) {
    Sorted(Positions(g), AtMost) == Places(|g|)
  }

  lemma ReadsPlacesIff(g: seq<Rank>)
    ensures ReadsPlaces(g) <==> forall k | 1 <= k <= |g| :: Placed(g, k)
    ensures ReadsPlaces(g) ==> forall i, j | 0 <= i < j < |g| :: g[i].position != g[j].position
    ensures ReadsPlaces(g) ==> forall r | r in g :: exists k :: 1 <= k <= |g| && Takes(r, k)
  {
    PlacesOfGroup(g);
    if ReadsPlaces(g) {
      SortedPlaces(Positions(g));
      TakenPlaces(g);
      assert forall i | 0 <= i < |g| :: Positions(g)[i] == g[i].position;
    }
    if HasPlaces(Positions(g)) {
      PlacesSorted(Positions(g));
    }
  }

  lemma SortedReads(g: seq<Rank>)
    requires CompleteRankRun(g)
    ensures ReadsPlaces(g)
  {
    var sorted := Sorted(Positions(g), AtMost);
    assert |sorted| == |g|;
  }

  /** A complete run is one run whose opportunities and positions 1 to n correspond one to one. */
  lemma CompleteIffBijection(g: seq<Rank>)
    ensures CompleteRankRun(g) <==> IsOneRun(g) && IsBijection(g)
  {
    if g != [] {
      SameRunIff(g);
      OpportunitiesApartIff(g);
      ReadsPlacesIff(g);
      var sorted := Sorted(Positions(g), AtMost);
      assert ReadsPlaces(g) <==> forall i | 0 <= i < |sorted| :: sorted[i] == (i + 1) as real;
      assert (forall i | 0 <= i < |g| :: g[i].complete && g[i].itemCount == |g|) <==>
             (forall r | r in g :: r.complete && r.itemCount == |g|);
    }
  }

  lemma TakenPlaces(g: seq<Rank>)
    requires multiset(Positions(g)) == multiset(Places(|g|))
    ensures forall r | r in g :: exists k :: 1 <= k <= |g| && Takes(r, k)
  {
    forall r | r in g
      ensures exists k :: 1 <= k <= |g| && Takes(r, k)
    {
      var i :| 0 <= i < |g| && g[i] == r;
      assert Positions(g)[i] in multiset(Positions(g));
      var j :| 0 <= j < |g| && Places(|g|)[j] == r.position;
      assert Takes(r, j + 1);
    }
  }

  // ---- The newest run ---------------------------------------------------------------------

  function Recency(g: seq<Rank>): int {
    if g == [] then 0
    else if |g| == 1 then g[0].knownAt
    else
      var front, last := Recency(g[..|g| - 1]), g[|g| - 1].knownAt;
      if front >= last then front else last
  }

  lemma {:induction false} RecencyIsGreatest(g: seq<Rank>)
    requires g != []
    ensures forall r | r in g :: r.knownAt <= Recency(g)
    ensures exists r :: r in g && r.knownAt == Recency(g)
  {
    if |g| == 1 {
      assert g[0] in g;
    } else {
      var front, last := g[..|g| - 1], g[|g| - 1];
      assert g == front + [last];
      RecencyIsGreatest(front);
      var r :| r in front && r.knownAt == Recency(front);
      assert r in g && last in g;
    }
  }

  predicate Covered(g: seq<Rank>, ids: set<nat>) {
    forall r | r in g :: r.opportunity in ids
  }

  predicate Eligible(ranks: seq<Rank>, ids: set<nat>, key: Key) {
    CompleteRankRun(Group(ranks, key)) && Covered(Group(ranks, key), ids)
  }

  /** How the running program compares two keys: any total preorder, so that different keys may tie. */
  type Collation = (Key, Key) -> bool

  /** More recent, or equally recent with a key that is not greater. */
  predicate Newer(c: Collation, a: Entry, b: Entry) {
    Recency(a.ranks) > Recency(b.ranks) || (Recency(a.ranks) == Recency(b.ranks) && c(a.key, b.key))
  }

  function NewestFirst(c: Collation): (Entry, Entry) -> bool {
    (a, b) => Newer(c, a, b)
  }

  lemma NewerTotal(c: Collation)
    requires TotalOrder(c)
    ensures TotalOrder(NewestFirst(c))
  {
  }

  function EntryOf(ranks: seq<Rank>, key: Key): Entry {
    Entry(key, Group(ranks, key))
  }

  /** Where a run first appears in the ranks array, or the length of the array. */
  function FirstAt(ranks: seq<Rank>, key: Key): (i: nat)
    ensures i <= |ranks| && (i < |ranks| ==> KeyOf(ranks[i]) == key)
    ensures forall k | 0 <= k < i :: KeyOf(ranks[k]) != key
  {
    if ranks == [] then 0
    else
      var front := FirstAt(ranks[..|ranks| - 1], key);
      if front < |ranks| - 1 || KeyOf(ranks[|ranks| - 1]) == key then front else |ranks|
  }

  /** No eligible run is strictly before this one. */
  ghost predicate IsNewest(c: Collation, ranks: seq<Rank>, ids: set<nat>, key: Key) {
    Eligible(ranks, ids, key) &&
    forall k | Eligible(ranks, ids, k) :: Newer(c, EntryOf(ranks, key), EntryOf(ranks, k))
  }

  /** Strictly before, or tied and the first to appear. */
  predicate Beats(c: Collation, ranks: seq<Rank>, a: Key, b: Key) {
    && Newer(c, EntryOf(ranks, a), EntryOf(ranks, b))
    && (Newer(c, EntryOf(ranks, b), EntryOf(ranks, a)) ==> FirstAt(ranks, a) <= FirstAt(ranks, b))
  }

  /** The newest complete run whose opportunities are all in the snapshot. */
  ghost predicate IsLatest(c: Collation, ranks: seq<Rank>, ids: set<nat>, key: Key) {
    Eligible(ranks, ids, key) && forall k | Eligible(ranks, ids, k) :: Beats(c, ranks, key, k)
  }

  lemma {:induction false} GroupedAppears(ranks: seq<Rank>, key: Key)
    ensures Group(ranks, key) != [] <==> FirstAt(ranks, key) < |ranks|
  {
    if ranks != [] {
      GroupedAppears(ranks[..|ranks| - 1], key);
    }
  }

  lemma LatestUnique(c: Collation, ranks: seq<Rank>, ids: set<nat>, a: Key, b: Key)
    requires IsLatest(c, ranks, ids, a) && IsLatest(c, ranks, ids, b)
    ensures a == b
  {
    assert Beats(c, ranks, a, b) && Beats(c, ranks, b, a);
    GroupedAppears(ranks, a);
  }

  /** Keys in the order in which they first appear, as a map keeps them. */
  function Keys(ranks: seq<Rank>): seq<Key> {
    if ranks == [] then []
    else
      var front, last := Keys(ranks[..|ranks| - 1]), KeyOf(ranks[|ranks| - 1]);
      if last in front then front else front + [last]
  }

  lemma {:induction false} KeysExact(ranks: seq<Rank>, key: Key)
    ensures key in Keys(ranks) <==> Group(ranks, key) != []
    ensures forall r | r in Group(ranks, key) :: r in ranks && KeyOf(r) == key
  {
    if ranks != [] {
      KeysExact(ranks[..|ranks| - 1], key);
    }
  }

  lemma {:induction false} KeysDiffer(ranks: seq<Rank>)
    ensures NoRepeats(Keys(ranks))
  {
    if ranks != [] {
      KeysDiffer(ranks[..|ranks| - 1]);
    }
  }

  function Entries(ranks: seq<Rank>, keys: seq<Key>): seq<Entry> {
    seq(|keys|, i requires 0 <= i < |keys| => EntryOf(ranks, keys[i]))
  }

  function EligibleOnly(entries: seq<Entry>, ids: set<nat>): seq<Entry> {
    if entries == [] then []
    else
      var last := entries[|entries| - 1];
      EligibleOnly(entries[..|entries| - 1], ids)
      + if CompleteRankRun(last.ranks) && Covered(last.ranks, ids) then [last] else []
  }

  lemma {:induction false} EligibleOnlyExact(entries: seq<Entry>, ids: set<nat>, e: Entry)
    ensures e in EligibleOnly(entries, ids) <==> e in entries && CompleteRankRun(e.ranks) && Covered(e.ranks, ids)
  {
    if entries != [] {
      EligibleOnlyExact(entries[..|entries| - 1], ids, e);
      assert entries == entries[..|entries| - 1] + [entries[|entries| - 1]];
    }
  }

  function Latest(c: Collation, entries: seq<Entry>, ids: set<nat>): Option<Entry> {
    var eligible := EligibleOnly(entries, ids);
    if eligible == [] then None else Some(Sorted(eligible, NewestFirst(c))[0])
  }

  lemma EntriesExact(ranks: seq<Rank>, ids: set<nat>, key: Key)
    ensures Eligible(ranks, ids, key) <==> EntryOf(ranks, key) in EligibleOnly(Entries(ranks, Keys(ranks)), ids)
  {
    KeysExact(ranks, key);
    var entries := Entries(ranks, Keys(ranks));
    EligibleOnlyExact(entries, ids, EntryOf(ranks, key));
    if key in Keys(ranks) {
      var i :| 0 <= i < |Keys(ranks)| && Keys(ranks)[i] == key;
      assert entries[i] == EntryOf(ranks, key);
    }
  }

  ghost predicate Appearing(ranks: seq<Rank>, entries: seq<Entry>) {
    forall i, j | 0 <= i < j < |entries| :: FirstAt(ranks, entries[i].key) < FirstAt(ranks, entries[j].key)
  }

  lemma {:induction false} KeysAppearing(ranks: seq<Rank>)
    ensures forall i | 0 <= i < |Keys(ranks)| :: FirstAt(ranks, Keys(ranks)[i]) < |ranks|
    ensures forall i, j | 0 <= i < j < |Keys(ranks)| :: FirstAt(ranks, Keys(ranks)[i]) < FirstAt(ranks, Keys(ranks)[j])
  {
    if ranks != [] {
      var front := ranks[..|ranks| - 1];
      KeysAppearing(front);
      KeysExact(front, KeyOf(ranks[|ranks| - 1]));
      GroupedAppears(front, KeyOf(ranks[|ranks| - 1]));
      assert forall i | 0 <= i < |Keys(front)| ::
        Keys(ranks)[i] == Keys(front)[i] && FirstAt(ranks, Keys(front)[i]) == FirstAt(front, Keys(front)[i]);
    }
  }

  lemma EligibleBefore(ranks: seq<Rank>, front: seq<Entry>, last: Entry, ids: set<nat>)
    requires Appearing(ranks, front + [last])
    ensures forall e | e in EligibleOnly(front, ids) :: FirstAt(ranks, e.key) < FirstAt(ranks, last.key)
  {
    forall e | e in EligibleOnly(front, ids)
      ensures FirstAt(ranks, e.key) < FirstAt(ranks, last.key)
    {
      EligibleOnlyExact(front, ids, e);
      var i :| 0 <= i < |front| && front[i] == e;
      assert (front + [last])[i] == e && (front + [last])[|front|] == last;
    }
  }

  lemma {:induction false} EligibleAppearing(ranks: seq<Rank>, entries: seq<Entry>, ids: set<nat>)
    requires Appearing(ranks, entries)
    ensures Appearing(ranks, EligibleOnly(entries, ids))
  {
    if entries != [] {
      var front, last := entries[..|entries| - 1], entries[|entries| - 1];
      assert entries == front + [last];
      EligibleAppearing(ranks, front, ids);
      EligibleBefore(ranks, front, last, ids);
    }
  }

  /** The head of the stable sort beats every eligible run. */
  lemma HeadIsLatest(c: Collation, ranks: seq<Rank>, ids: set<nat>, eligible: seq<Entry>)
    requires TotalOrder(c) && eligible != [] && Appearing(ranks, eligible)
    requires forall e | e in eligible :: e == EntryOf(ranks, e.key)
    requires forall key :: Eligible(ranks, ids, key) <==> EntryOf(ranks, key) in eligible
    ensures IsLatest(c, ranks, ids, Sorted(eligible, NewestFirst(c))[0].key)
    ensures Sorted(eligible, NewestFirst(c))[0] in eligible
  {
    NewerTotal(c);
    var i := SortedTakesFirst(eligible, NewestFirst(c));
    forall k | Eligible(ranks, ids, k)
      ensures Beats(c, ranks, eligible[i].key, k)
    {
      var j :| 0 <= j < |eligible| && eligible[j] == EntryOf(ranks, k);
      assert NewestFirst(c)(eligible[i], eligible[j]);
      assert j < i ==> !NewestFirst(c)(eligible[j], eligible[i]);
    }
  }

  /** Filtering, sorting and taking the first entry finds the newest eligible run, if there is one. */
  lemma LatestExact(c: Collation, ranks: seq<Rank>, ids: set<nat>)
    requires TotalOrder(c)
    ensures var latest := Latest(c, Entries(ranks, Keys(ranks)), ids);
      && (latest.None? ==> forall key :: !Eligible(ranks, ids, key))
      && (latest.Some? ==>
            latest.value == EntryOf(ranks, latest.value.key) && IsLatest(c, ranks, ids, latest.value.key))
  {
    var entries := Entries(ranks, Keys(ranks));
    var eligible := EligibleOnly(entries, ids);
    forall key
      ensures Eligible(ranks, ids, key) <==> EntryOf(ranks, key) in eligible
    {
      EntriesExact(ranks, ids, key);
    }
    forall e | e in eligible
      ensures e == EntryOf(ranks, e.key)
    {
      EligibleOnlyExact(entries, ids, e);
    }
    if eligible != [] {
      KeysAppearing(ranks);
      EligibleAppearing(ranks, entries, ids);
      HeadIsLatest(c, ranks, ids, eligible);
    }
  }

  // ---- The leader -------------------------------------------------------------------------

  function AllIds(opportunities: seq<Opportunity>): set<nat> {
    set o | o in opportunities :: o.id
  }

  function ActionableIds(opportunities: seq<Opportunity>): set<nat> {
    set o | o in opportunities && o.actionable :: o.id
  }

  function ActionableOnly(g: seq<Rank>, ids: set<nat>): seq<Rank> {
    if g == [] then []
    else
      var last := g[|g| - 1];
      ActionableOnly(g[..|g| - 1], ids) + if last.opportunity in ids then [last] else []
  }

  lemma {:induction false} ActionableOnlyExact(g: seq<Rank>, ids: set<nat>, r: Rank)
    ensures r in ActionableOnly(g, ids) <==> r in g && r.opportunity in ids
  {
    if g != [] {
      ActionableOnlyExact(g[..|g| - 1], ids, r);
      assert g == g[..|g| - 1] + [g[|g| - 1]];
    }
  }

  /** By position; the later criteria never decide, because positions in a complete run differ. */
  predicate BetterPlaced(l: Rank, r: Rank) {
    if l.position != r.position then l.position < r.position
    else if l.score != r.score then l.score > r.score
    else if l.knownAt != r.knownAt then l.knownAt > r.knownAt
    else l.opportunity <= r.opportunity
  }

  lemma BetterPlacedTotal()
    ensures TotalOrder(BetterPlaced)
  {
  }

  lemma BestHead(g: seq<Rank>)
    requires g != []
    ensures Sorted(g, BetterPlaced)[0] in g && forall r | r in g :: BetterPlaced(Sorted(g, BetterPlaced)[0], r)
  {
    BetterPlacedTotal();
    SortedHead(g, BetterPlaced);
  }

  /** This rank is the best placed of the actionable ones in its group. */
  predicate Leads(g: seq<Rank>, actionable: set<nat>, r: Rank) {
    && r in g && r.opportunity in actionable
    && forall s | s in g && s.opportunity in actionable :: r.position <= s.position
  }

  ghost predicate LeadsIn(c: Collation, ranks: seq<Rank>, opportunities: seq<Opportunity>, key: Key, r: Rank) {
    IsLatest(c, ranks, AllIds(opportunities), key) && Leads(Group(ranks, key), ActionableIds(opportunities), r)
  }

  /** The opportunity with the lowest position among the actionable ones of the newest complete run. */
  ghost predicate IsLeader(c: Collation, ranks: seq<Rank>, opportunities: seq<Opportunity>, id: nat) {
    exists key, r :: LeadsIn(c, ranks, opportunities, key, r) && r.opportunity == id
  }

  lemma LeadsUnique(g: seq<Rank>, actionable: set<nat>, r: Rank, s: Rank)
    requires CompleteRankRun(g) && Leads(g, actionable, r) && Leads(g, actionable, s)
    ensures r == s
  {
    ReadsPlacesIff(g);
    SortedReads(g);
    var i :| 0 <= i < |g| && g[i] == r;
    var j :| 0 <= j < |g| && g[j] == s;
    assert r.position == s.position;
  }

  lemma LeaderUnique(c: Collation, ranks: seq<Rank>, opportunities: seq<Opportunity>, a: nat, b: nat)
    requires IsLeader(c, ranks, opportunities, a) && IsLeader(c, ranks, opportunities, b)
    ensures a == b
  {
    var k, r :| LeadsIn(c, ranks, opportunities, k, r) && r.opportunity == a;
    var l, s :| LeadsIn(c, ranks, opportunities, l, s) && s.opportunity == b;
    LatestUnique(c, ranks, AllIds(opportunities), k, l);
    LeadsUnique(Group(ranks, k), ActionableIds(opportunities), r, s);
  }

  function FindLast(opportunities: seq<Opportunity>, id: nat): Option<Opportunity> {
    if opportunities == [] then None
    else if opportunities[|opportunities| - 1].id == id then Some(opportunities[|opportunities| - 1])
    else FindLast(opportunities[..|opportunities| - 1], id)
  }

  lemma {:induction false} FindLastExact(opportunities: seq<Opportunity>, id: nat)
    ensures FindLast(opportunities, id).Some? <==> id in AllIds(opportunities)
    ensures FindLast(opportunities, id).Some? ==>
              FindLast(opportunities, id).value in opportunities && FindLast(opportunities, id).value.id == id
  {
    if opportunities != [] {
      var front, last := opportunities[..|opportunities| - 1], opportunities[|opportunities| - 1];
      FindLastExact(front, id);
      assert opportunities == front + [last];
      assert AllIds(opportunities) == AllIds(front) + {last.id};
    }
  }

  lemma GroupAppend(ranks: seq<Rank>, r: Rank, key: Key)
    ensures Group(ranks + [r], key) == Group(ranks, key) + if KeyOf(r) == key then [r] else []
  {
    assert (ranks + [r])[..|ranks|] == ranks;
  }

  lemma KeysAppend(ranks: seq<Rank>, r: Rank)
    ensures Keys(ranks + [r]) == if KeyOf(r) in Keys(ranks) then Keys(ranks) else Keys(ranks) + [KeyOf(r)]
  {
    assert (ranks + [r])[..|ranks|] == ranks;
  }

  /** One more rank of a known run makes that entry longer and no other. */
  lemma EntriesGrow(ranks: seq<Rank>, r: Rank, i: nat)
    requires i < |Keys(ranks)| && Keys(ranks)[i] == KeyOf(r)
    ensures Entries(ranks + [r], Keys(ranks + [r])) ==
            Entries(ranks, Keys(ranks))[i := Entry(KeyOf(r), Group(ranks, KeyOf(r)) + [r])]
  {
    KeysAppend(ranks, r);
    KeysDiffer(ranks);
    forall k | 0 <= k < |Keys(ranks)|
      ensures EntryOf(ranks + [r], Keys(ranks)[k]) ==
              if k == i then Entry(KeyOf(r), Group(ranks, KeyOf(r)) + [r]) else EntryOf(ranks, Keys(ranks)[k])
    {
      GroupAppend(ranks, r, Keys(ranks)[k]);
      assert k != i ==> Keys(ranks)[k] != Keys(ranks)[i];
    }
  }

  /** The first rank of a run opens a new entry at the end. */
  lemma EntriesOpen(ranks: seq<Rank>, r: Rank)
    requires KeyOf(r) !in Keys(ranks)
    ensures Entries(ranks + [r], Keys(ranks + [r])) == Entries(ranks, Keys(ranks)) + [Entry(KeyOf(r), [r])]
  {
    KeysAppend(ranks, r);
    KeysExact(ranks, KeyOf(r));
    GroupAppend(ranks, r, KeyOf(r));
    forall k | 0 <= k < |Keys(ranks)|
      ensures EntryOf(ranks + [r], Keys(ranks)[k]) == EntryOf(ranks, Keys(ranks)[k])
    {
      GroupAppend(ranks, r, Keys(ranks)[k]);
    }
  }

  /** Groups the ranks by book and run. */
  method GroupRuns(ranks: seq<Rank>) returns (entries: seq<Entry>)
    ensures entries == Entries(ranks, Keys(ranks))
  {
    entries := [];
    for n := 0 to |ranks|
      invariant entries == Entries(ranks[..n], Keys(ranks[..n]))
    {
      var rank, key := ranks[n], KeyOf(ranks[n]);
      assert ranks[..n + 1] == ranks[..n] + [rank];
      assert forall k | 0 <= k < |entries| :: entries[k].key == Keys(ranks[..n])[k];
      if i :| 0 <= i < |entries| && entries[i].key == key {
        EntriesGrow(ranks[..n], rank, i);
        entries := entries[i := Entry(key, entries[i].ranks + [rank])];
      } else {
        EntriesOpen(ranks[..n], rank);
        entries := entries + [Entry(key, [rank])];
      }
    }
    assert ranks[..|ranks|] == ranks;
  }

  /** The actionable rows of the newest run, and nothing when there is none. */
  ghost predicate IsLatestMap(c: Collation, ranks: seq<Rank>, opportunities: seq<Opportunity>, values: seq<Rank>) {
    && ((exists key :: Eligible(ranks, AllIds(opportunities), key)) ==>
          exists key :: IsLatest(c, ranks, AllIds(opportunities), key)
                        && values == ActionableOnly(Group(ranks, key), ActionableIds(opportunities)))
    && ((forall key :: !Eligible(ranks, AllIds(opportunities), key)) ==> values == [])
  }

  /** `latestRankBookMap`: in a complete run no opportunity comes twice, so nothing is ever replaced. */
  method LatestRankBookMap(c: Collation, ranks: seq<Rank>, opportunities: seq<Opportunity>) returns (values: seq<Rank>)
    requires TotalOrder(c)
    ensures IsLatestMap(c, ranks, opportunities, values)
  {
    var entries := GroupRuns(ranks);
    var latest := Latest(c, entries, AllIds(opportunities));
    LatestExact(c, ranks, AllIds(opportunities));
    values := [];
    if latest.None? {
      return;
    }
    var run, actionable := latest.value.ranks, ActionableIds(opportunities);
    CompleteIffBijection(run);
    for n := 0 to |run|
      invariant values == ActionableOnly(run[..n], actionable)
    {
      assert run[..n + 1][..n] == run[..n];
      var rank := run[n];
      if rank.opportunity in actionable {
        if i :| 0 <= i < |values| && values[i].opportunity == rank.opportunity {
          ActionableOnlyExact(run[..n], actionable, values[i]);
          assert false;
        } else {
          values := values + [rank];
        }
      }
    }
    assert run[..|run|] == run;
  }

  /** Where an id is repeated and any of its opportunities is actionable, the last one is. */
  predicate LastsActionable(opportunities: seq<Opportunity>) {
    forall o | o in opportunities && o.actionable ::
      var last := FindLast(opportunities, o.id); last.Some? && last.value.actionable
  }

  lemma LeaderIsActionable(c: Collation, ranks: seq<Rank>, opportunities: seq<Opportunity>, id: nat)
    requires IsLeader(c, ranks, opportunities, id) && LastsActionable(opportunities)
    ensures FindLast(opportunities, id).Some? && FindLast(opportunities, id).value.actionable
  {
    var key, r :| LeadsIn(c, ranks, opportunities, key, r) && r.opportunity == id;
    var o :| o in opportunities && o.actionable && o.id == id;
  }

  lemma UniqueIdsActionable(opportunities: seq<Opportunity>)
    requires forall i, j | 0 <= i < j < |opportunities| :: opportunities[i].id != opportunities[j].id
    ensures LastsActionable(opportunities)
  {
    forall o | o in opportunities && o.actionable
      ensures FindLast(opportunities, o.id) == Some(o)
    {
      FindLastExact(opportunities, o.id);
      assert o.id in AllIds(opportunities);
    }
  }

  /** A finished run that ranks one opportunity alone. */
  function Alone(id: nat): RawRank {
    RawRank(id, Some(0), 0, Some(0), Some(0), Some(1.0), Some(1), Some(true), 0.0)
  }

  lemma AloneIsComplete(id: nat)
    ensures var g := NormalizedRanks([Alone(id)]);
      && |g| == 1 && g[0].opportunity == id && KeyOf(g[0]) == Key(0, 0) && CompleteRankRun(g)
  {
    NormalizedSingle(Alone(id));
    var g := NormalizedRanks([Alone(id)]);
    assert Takes(g[0], 1) && g[0] in g;
    CompleteIffBijection(g);
  }

  lemma AloneLeads(c: Collation, opportunities: seq<Opportunity>, id: nat)
    requires TotalOrder(c) && id in ActionableIds(opportunities)
    ensures IsLeader(c, NormalizedRanks([Alone(id)]), opportunities, id)
  {
    var ranks, key := NormalizedRanks([Alone(id)]), Key(0, 0);
    AloneIsComplete(id);
    assert ranks[..|ranks| - 1] == [];
    assert Group(ranks, key) == ranks;
    forall k | Eligible(ranks, AllIds(opportunities), k)
      ensures Beats(c, ranks, key, k)
    {
      assert Group(ranks, k) == if k == key then ranks else [];
      assert c(key, key);
    }
    assert ranks[0] in ranks && LeadsIn(c, ranks, opportunities, key, ranks[0]);
  }

  /** The id leads, but the opportunity that is returned for it cannot be acted on. */
  ghost predicate LeadsInVain(c: Collation, raw: seq<RawRank>, opportunities: seq<Opportunity>, id: nat) {
    IsLeader(c, NormalizedRanks(raw), opportunities, id) &&
    !(FindLast(opportunities, id).Some? && FindLast(opportunities, id).value.actionable)
  }

  /** Whatever the ranks are, what is returned for the leader can be acted on, if and only if the last
  opportunity of each repeated id can be when any of them can. */
  lemma LeaderActionableIff(c: Collation, opportunities: seq<Opportunity>)
    requires TotalOrder(c)
    ensures (forall raw, id :: !LeadsInVain(c, raw, opportunities, id)) <==> LastsActionable(opportunities)
  {
    if LastsActionable(opportunities) {
      forall raw, id
        ensures !LeadsInVain(c, raw, opportunities, id)
      {
        if LeadsInVain(c, raw, opportunities, id) {
          LeaderIsActionable(c, NormalizedRanks(raw), opportunities, id);
        }
      }
    } else {
      var o :| o in opportunities && o.actionable &&
        !(FindLast(opportunities, o.id).Some? && FindLast(opportunities, o.id).value.actionable);
      AloneLeads(c, opportunities, o.id);
      assert LeadsInVain(c, [Alone(o.id)], opportunities, o.id);
    }
  }

  /** For instance: one id, actionable first and not the second time. */
  lemma RepeatedIdNotActionable(c: Collation)
    requires TotalOrder(c)
    ensures var opportunities := [Opportunity(1, true), Opportunity(1, false)];
      && IsLeader(c, NormalizedRanks([Alone(1)]), opportunities, 1)
      && FindLast(opportunities, 1) == Some(Opportunity(1, false))
  {
    var opportunities := [Opportunity(1, true), Opportunity(1, false)];
    assert opportunities[0] in opportunities && 1 in ActionableIds(opportunities);
    AloneLeads(c, opportunities, 1);
  }

  /** `latestRankLeader`: the leader when there is one, and otherwise nothing. */
  method LatestRankLeader(c: Collation, raw: seq<RawRank>, opportunities: seq<Opportunity>)
    returns (leader: Option<Opportunity>)
    requires TotalOrder(c)
    ensures leader.Some? ==> leader.value in opportunities
    ensures leader.Some? ==> IsLeader(c, NormalizedRanks(raw), opportunities, leader.value.id)
    // Of several opportunities with the leading id the last one is returned, actionable or not.
    ensures leader.Some? ==> leader == FindLast(opportunities, leader.value.id)
    ensures leader.Some? && LastsActionable(opportunities) ==> leader.value.actionable
    ensures leader.None? ==> forall id :: !IsLeader(c, NormalizedRanks(raw), opportunities, id)
  {
    var values := LatestRankBookMap(c, NormalizedRanks(raw), opportunities);
    MapShowsLeader(c, NormalizedRanks(raw), opportunities, values);
    if values == [] {
      return None;
    }
    var best := Sorted(values, BetterPlaced)[0];
    FindLastExact(opportunities, best.opportunity);
    leader := FindLast(opportunities, best.opportunity);
    if LastsActionable(opportunities) {
      LeaderIsActionable(c, NormalizedRanks(raw), opportunities, best.opportunity);
    }
  }

  lemma MapShowsLeader(c: Collation, ranks: seq<Rank>, opportunities: seq<Opportunity>, values: seq<Rank>)
    requires IsLatestMap(c, ranks, opportunities, values)
    ensures values == [] ==> forall id :: !IsLeader(c, ranks, opportunities, id)
    ensures values != [] ==> var best := Sorted(values, BetterPlaced)[0];
              IsLeader(c, ranks, opportunities, best.opportunity) && best.opportunity in AllIds(opportunities)
  {
    if values == [] {
      NobodyLeads(c, ranks, opportunities);
    } else {
      var key :| IsLatest(c, ranks, AllIds(opportunities), key)
        && values == ActionableOnly(Group(ranks, key), ActionableIds(opportunities));
      BestLeads(c, ranks, opportunities, key);
    }
  }

  lemma BestLeads(c: Collation, ranks: seq<Rank>, opportunities: seq<Opportunity>, key: Key)
    requires IsLatest(c, ranks, AllIds(opportunities), key)
    requires ActionableOnly(Group(ranks, key), ActionableIds(opportunities)) != []
    ensures var best := Sorted(ActionableOnly(Group(ranks, key), ActionableIds(opportunities)), BetterPlaced)[0];
      LeadsIn(c, ranks, opportunities, key, best) && IsLeader(c, ranks, opportunities, best.opportunity)
      && best.opportunity in AllIds(opportunities)
  {
    var g, actionable := Group(ranks, key), ActionableIds(opportunities);
    var values := ActionableOnly(g, actionable);
    BestHead(values);
    var best := Sorted(values, BetterPlaced)[0];
    ActionableOnlyExact(g, actionable, best);
    forall s | s in g && s.opportunity in actionable
      ensures best.position <= s.position
    {
      ActionableOnlyExact(g, actionable, s);
    }
    assert LeadsIn(c, ranks, opportunities, key, best);
  }

  lemma NobodyLeads(c: Collation, ranks: seq<Rank>, opportunities: seq<Opportunity>)
    requires (exists key :: Eligible(ranks, AllIds(opportunities), key)) ==>
      exists key :: IsLatest(c, ranks, AllIds(opportunities), key)
                    && ActionableOnly(Group(ranks, key), ActionableIds(opportunities)) == []
    ensures forall id :: !IsLeader(c, ranks, opportunities, id)
  {
    forall id
      ensures !IsLeader(c, ranks, opportunities, id)
    {
      if IsLeader(c, ranks, opportunities, id) {
        var k, r :| LeadsIn(c, ranks, opportunities, k, r) && r.opportunity == id;
        assert Eligible(ranks, AllIds(opportunities), k);
        var l :| IsLatest(c, ranks, AllIds(opportunities), l)
          && ActionableOnly(Group(ranks, l), ActionableIds(opportunities)) == [];
        LatestUnique(c, ranks, AllIds(opportunities), k, l);
        ActionableOnlyExact(Group(ranks, k), ActionableIds(opportunities), r);
      }
    }
  }

  // ---- The order of the ranks does not matter ---------------------------------------------

  lemma {:induction false} GroupCount(ranks: seq<Rank>, key: Key, x: Rank)
    ensures multiset(Group(ranks, key))[x] == if KeyOf(x) == key then multiset(ranks)[x] else 0
  {
    if ranks != [] {
      GroupCount(ranks[..|ranks| - 1], key, x);
      assert ranks == ranks[..|ranks| - 1] + [ranks[|ranks| - 1]];
    }
  }

  lemma GroupAnyOrder(s: seq<Rank>, t: seq<Rank>, key: Key)
    requires multiset(s) == multiset(t)
    ensures multiset(Group(s, key)) == multiset(Group(t, key))
  {
    forall x: Rank
      ensures multiset(Group(s, key))[x] == multiset(Group(t, key))[x]
    {
      GroupCount(s, key, x);
      GroupCount(t, key, x);
    }
  }

  ghost predicate SameMembers(g: seq<Rank>, h: seq<Rank>) {
    |g| == |h| && forall r :: r in g <==> r in h
  }

  lemma SameMultisetMembers(g: seq<Rank>, h: seq<Rank>)
    requires multiset(g) == multiset(h)
    ensures SameMembers(g, h)
  {
    assert |multiset(g)| == |g| && |multiset(h)| == |h|;
    forall r
      ensures r in g <==> r in h
    {
      assert r in g <==> r in multiset(g);
      assert r in h <==> r in multiset(h);
    }
  }

  lemma OpportunitySet(g: seq<Rank>)
    ensures Elements(Opportunities(g)) == set r | r in g :: r.opportunity
  {
    forall x | x in Elements(Opportunities(g))
      ensures x in (set r | r in g :: r.opportunity)
    {
      var i :| 0 <= i < |g| && Opportunities(g)[i] == x;
      assert g[i] in g;
    }
    forall r | r in g
      ensures r.opportunity in Elements(Opportunities(g))
    {
      var i :| 0 <= i < |g| && g[i] == r;
      assert Opportunities(g)[i] == r.opportunity;
    }
  }

  /** What makes a run complete, said of its members and its length alone. */
  ghost predicate CompleteMembers(g: seq<Rank>) {
    && IsOneRun(g) && |Elements(Opportunities(g))| == |g|
    && (forall k | 1 <= k <= |g| :: Placed(g, k))
  }

  lemma CompleteIffMembers(g: seq<Rank>)
    ensures CompleteRankRun(g) <==> CompleteMembers(g)
  {
    CompleteIffBijection(g);
    OpportunitiesApartIff(g);
    ReadsPlacesIff(g);
  }

  lemma PlacedMembers(g: seq<Rank>, h: seq<Rank>, k: int)
    requires SameMembers(g, h)
    ensures Placed(g, k) ==> Placed(h, k)
  {
    if Placed(g, k) {
      var r :| r in g && Takes(r, k);
      assert r in h;
    }
  }

  lemma CompleteAnyOrder(g: seq<Rank>, h: seq<Rank>)
    requires SameMembers(g, h)
    ensures CompleteRankRun(g) ==> CompleteRankRun(h)
  {
    CompleteIffMembers(g);
    CompleteIffMembers(h);
    OpportunitySet(g);
    OpportunitySet(h);
    assert (set r | r in g :: r.opportunity) == (set r | r in h :: r.opportunity);
    if CompleteMembers(g) {
      forall k | 1 <= k <= |h|
        ensures Placed(h, k)
      {
        PlacedMembers(g, h, k);
      }
    }
  }

  lemma RecencyAnyOrder(g: seq<Rank>, h: seq<Rank>)
    requires SameMembers(g, h)
    ensures Recency(g) == Recency(h)
  {
    if g != [] {
      RecencyIsGreatest(g);
      RecencyIsGreatest(h);
    }
  }

  /** Keys are judged alike in both orders. */
  lemma KeyAnyOrder(s: seq<Rank>, t: seq<Rank>, ids: set<nat>, key: Key)
    requires multiset(s) == multiset(t)
    ensures SameMembers(Group(s, key), Group(t, key))
    ensures Eligible(s, ids, key) ==> Eligible(t, ids, key)
    ensures Recency(Group(s, key)) == Recency(Group(t, key))
  {
    GroupAnyOrder(s, t, key);
    SameMultisetMembers(Group(s, key), Group(t, key));
    CompleteAnyOrder(Group(s, key), Group(t, key));
    RecencyAnyOrder(Group(s, key), Group(t, key));
  }

  /** Two different runs that no eligible run is strictly before. */
  ghost predicate Tied(c: Collation, ranks: seq<Rank>, ids: set<nat>) {
    exists a, b | a != b :: IsNewest(c, ranks, ids, a) && IsNewest(c, ranks, ids, b)
  }

  lemma NewestAnyOrder(c: Collation, s: seq<Rank>, t: seq<Rank>, ids: set<nat>, key: Key)
    requires multiset(s) == multiset(t) && IsNewest(c, s, ids, key)
    ensures IsNewest(c, t, ids, key)
  {
    KeyAnyOrder(s, t, ids, key);
    forall k | Eligible(t, ids, k)
      ensures Newer(c, EntryOf(t, key), EntryOf(t, k))
    {
      KeyAnyOrder(t, s, ids, k);
      assert Newer(c, EntryOf(s, key), EntryOf(s, k));
    }
  }

  /** What is as new as the newest is itself one of the newest. */
  lemma NewerThanNewest(c: Collation, ranks: seq<Rank>, ids: set<nat>, a: Key, k: Key)
    requires TotalOrder(c) && IsNewest(c, ranks, ids, a) && Eligible(ranks, ids, k)
    requires Newer(c, EntryOf(ranks, k), EntryOf(ranks, a))
    ensures IsNewest(c, ranks, ids, k)
  {
    forall l | Eligible(ranks, ids, l)
      ensures Newer(c, EntryOf(ranks, k), EntryOf(ranks, l))
    {
      assert Newer(c, EntryOf(ranks, a), EntryOf(ranks, l));
    }
  }

  lemma LatestIsNewest(c: Collation, ranks: seq<Rank>, ids: set<nat>, key: Key)
    requires IsLatest(c, ranks, ids, key)
    ensures IsNewest(c, ranks, ids, key)
  {
    assert forall k | Eligible(ranks, ids, k) :: Beats(c, ranks, key, k);
  }

  lemma LatestAnyOrder(c: Collation, s: seq<Rank>, t: seq<Rank>, ids: set<nat>, key: Key)
    requires TotalOrder(c) && multiset(s) == multiset(t) && IsLatest(c, s, ids, key) && !Tied(c, s, ids)
    ensures IsLatest(c, t, ids, key)
  {
    LatestIsNewest(c, s, ids, key);
    NewestAnyOrder(c, s, t, ids, key);
    forall k | Eligible(t, ids, k)
      ensures Beats(c, t, key, k)
    {
      if Newer(c, EntryOf(t, k), EntryOf(t, key)) {
        NewerThanNewest(c, t, ids, key, k);
        NewestAnyOrder(c, t, s, ids, k);
        assert k == key;
      }
    }
  }

  function Rest(ranks: seq<Rank>, key: Key): seq<Rank> {
    if ranks == [] then []
    else Rest(ranks[..|ranks| - 1], key) + if KeyOf(ranks[|ranks| - 1]) == key then [] else [ranks[|ranks| - 1]]
  }

  lemma {:induction false} GroupAndRest(ranks: seq<Rank>, key: Key)
    ensures multiset(Group(ranks, key) + Rest(ranks, key)) == multiset(ranks)
  {
    if ranks != [] {
      GroupAndRest(ranks[..|ranks| - 1], key);
      assert ranks == ranks[..|ranks| - 1] + [ranks[|ranks| - 1]];
    }
  }

  /** A run whose ranks are moved to the front wins every tie. */
  lemma MovedFirst(c: Collation, s: seq<Rank>, ids: set<nat>, key: Key)
    requires TotalOrder(c) && IsNewest(c, s, ids, key)
    ensures var t := Group(s, key) + Rest(s, key); multiset(t) == multiset(s) && IsLatest(c, t, ids, key)
  {
    var t := Group(s, key) + Rest(s, key);
    GroupAndRest(s, key);
    NewestAnyOrder(c, s, t, ids, key);
    KeysExact(s, key);
    assert KeyOf(t[0]) == key && FirstAt(t, key) == 0;
  }

  lemma TieMoves(c: Collation, s: seq<Rank>, ids: set<nat>) returns (t: seq<Rank>, key: Key)
    requires TotalOrder(c) && Tied(c, s, ids)
    ensures multiset(s) == multiset(t) && IsLatest(c, s, ids, key) && !IsLatest(c, t, ids, key)
  {
    var a, b :| a != b && IsNewest(c, s, ids, a) && IsNewest(c, s, ids, b);
    LatestExact(c, s, ids);
    key := Latest(c, Entries(s, Keys(s)), ids).value.key;
    var other := if key == a then b else a;
    MovedFirst(c, s, ids, other);
    t := Group(s, other) + Rest(s, other);
    if IsLatest(c, t, ids, key) {
      LatestUnique(c, t, ids, key, other);
    }
  }

  /** The chosen run does not depend on the order of the ranks array if and only if no two equally recent
  eligible runs have keys that compare equal. */
  lemma LatestAnyOrderIff(c: Collation, s: seq<Rank>, ids: set<nat>)
    requires TotalOrder(c)
    ensures (forall t, key | multiset(s) == multiset(t) && IsLatest(c, s, ids, key) :: IsLatest(c, t, ids, key)) <==>
            !Tied(c, s, ids)
  {
    if Tied(c, s, ids) {
      var t, key := TieMoves(c, s, ids);
    } else {
      forall t, key | multiset(s) == multiset(t) && IsLatest(c, s, ids, key)
        ensures IsLatest(c, t, ids, key)
      {
        LatestAnyOrder(c, s, t, ids, key);
      }
    }
  }

  lemma TiedAnyOrder(c: Collation, s: seq<Rank>, t: seq<Rank>, ids: set<nat>)
    requires multiset(s) == multiset(t) && Tied(c, s, ids)
    ensures Tied(c, t, ids)
  {
    var a, b :| a != b && IsNewest(c, s, ids, a) && IsNewest(c, s, ids, b);
    NewestAnyOrder(c, s, t, ids, a);
    NewestAnyOrder(c, s, t, ids, b);
  }

  lemma LeaderAnyNormalizedOrder(c: Collation, s: seq<Rank>, t: seq<Rank>, opportunities: seq<Opportunity>, id: nat)
    requires TotalOrder(c) && multiset(s) == multiset(t)
    requires IsLeader(c, s, opportunities, id) && !Tied(c, s, AllIds(opportunities))
    ensures IsLeader(c, t, opportunities, id)
  {
    var key, r :| LeadsIn(c, s, opportunities, key, r) && r.opportunity == id;
    LatestAnyOrder(c, s, t, AllIds(opportunities), key);
    KeyAnyOrder(s, t, AllIds(opportunities), key);
    assert LeadsIn(c, t, opportunities, key, r);
  }

  function NormalizedOne(r: RawRank): seq<Rank> {
    if Normalized(r).Some? then [Normalized(r).value] else []
  }

  lemma {:induction false} NormalizedConcat(s: seq<RawRank>, t: seq<RawRank>)
    ensures NormalizedRanks(s + t) == NormalizedRanks(s) + NormalizedRanks(t)
  {
    if t == [] {
      assert s + t == s;
    } else {
      NormalizedConcat(s, t[..|t| - 1]);
      assert (s + t)[..|s + t| - 1] == s + t[..|t| - 1];
    }
  }

  lemma NormalizedSingle(r: RawRank)
    ensures NormalizedRanks([r]) == NormalizedOne(r)
  {
    assert [r][..0] == [];
  }

  lemma NormalizedSplit(a: seq<RawRank>, r: RawRank, b: seq<RawRank>)
    ensures multiset(NormalizedRanks(a + ([r] + b))) == multiset(NormalizedRanks(a + b)) + multiset(NormalizedOne(r))
  {
    NormalizedConcat(a, [r] + b);
    NormalizedConcat([r], b);
    NormalizedConcat(a, b);
    NormalizedSingle(r);
  }

  lemma CutAt<T>(s: seq<T>, i: nat)
    requires i < |s|
    ensures s == s[..i] + ([s[i]] + s[i + 1..])
  {
  }

  lemma NormalizedWithout(s: seq<RawRank>, i: nat)
    requires i < |s|
    ensures multiset(NormalizedRanks(s)) ==
            multiset(NormalizedRanks(s[..i] + s[i + 1..])) + multiset(NormalizedOne(s[i]))
  {
    CutAt(s, i);
    NormalizedSplit(s[..i], s[i], s[i + 1..]);
  }

  lemma Without<T>(s: seq<T>, i: nat)
    requires i < |s|
    ensures multiset(s[..i] + s[i + 1..]) == multiset(s) - multiset{s[i]}
  {
    CutAt(s, i);
  }

  lemma {:induction false} NormalizedAnyOrder(s: seq<RawRank>, t: seq<RawRank>)
    requires multiset(s) == multiset(t)
    ensures multiset(NormalizedRanks(s)) == multiset(NormalizedRanks(t))
    decreases |s|
  {
    assert |multiset(s)| == |s| && |multiset(t)| == |t|;
    if s != [] {
      var m := |s| - 1;
      assert s[m] in multiset(t);
      var i :| 0 <= i < |t| && t[i] == s[m];
      Without(s, m);
      Without(t, i);
      NormalizedWithout(s, m);
      NormalizedWithout(t, i);
      NormalizedAnyOrder(s[..m] + s[m + 1..], t[..i] + t[i + 1..]);
    }
  }

  /** So shuffling the ranks array leaves the leader as it is, unless there is such a tie. */
  lemma LeaderAnyOrder(c: Collation, s: seq<RawRank>, t: seq<RawRank>, opportunities: seq<Opportunity>, id: nat)
    requires TotalOrder(c) && multiset(s) == multiset(t)
    requires !Tied(c, NormalizedRanks(s), AllIds(opportunities))
    ensures IsLeader(c, NormalizedRanks(s), opportunities, id) <==> IsLeader(c, NormalizedRanks(t), opportunities, id)
  {
    NormalizedAnyOrder(s, t);
    var a, b := NormalizedRanks(s), NormalizedRanks(t);
    if IsLeader(c, a, opportunities, id) {
      LeaderAnyNormalizedOrder(c, a, b, opportunities, id);
    }
    if IsLeader(c, b, opportunities, id) {
      if Tied(c, b, AllIds(opportunities)) {
        TiedAnyOrder(c, b, a, AllIds(opportunities));
      }
      LeaderAnyNormalizedOrder(c, b, a, opportunities, id);
    }
  }
}

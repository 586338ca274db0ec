/**
 What a merge keeps (src/runtime_tools/deep_profile/_aggregation.py, _loader.py): the functions with the greatest self and total
 times over all reports, and the edges between them with the greatest total times and calls. The ranks are those of the
 digests; these are the functions and edges that the digests stand for.
 */
module Selection {
  import opened Merge
  import opened Integers
  import opened Profiler
  import opened Ranking
  import opened Results
  import opened Sets
  import opened Sums

  /** The greatest of all by their ranks, as many as there may be. */
  ghost predicate Greatest<T>(all: set<T>, kept: set<T>, rank: T -> seq<int>, limit: nat) {
    && kept <= all
    && |kept| == (if |all| <= limit then |all| else limit)
    && (forall k, d :: k in kept && d in all && d !in kept ==> Less(rank(d), rank(k)))
  }

  /** There is one way only to keep the greatest. */
  lemma GreatestIsUnique<T>(all: set<T>, first: set<T>, second: set<T>, rank: T -> seq<int>, limit: nat)
    requires Greatest(all, first, rank, limit) && Greatest(all, second, rank, limit)
    ensures first == second
  {
    if first <= second {
      SubsetSize(first, second);
    } else {
      var a :| a in first && a !in second;
      if second <= first {
        SubsetSize(second, first);
      }
      var b :| b in second && b !in first;
      LessTotal(rank(a), rank(b));
      assert false;
    }
  }

  ghost predicate Injective<S, T>(all: set<S>, f: S -> T) {
    forall a, b :: a in all && b in all && f(a) == f(b) ==> a == b
  }

  lemma {:induction false} ImageSize<S, T>(all: set<S>, f: S -> T, image: set<T>)
    requires Injective(all, f)
    requires forall x :: x in all ==> f(x) in image
    requires forall t :: t in image ==> exists x :: x in all && f(x) == t
    ensures |image| == |all|
    decreases all
  {
    if all == {} {
      assert image == {};
    } else {
      var a :| a in all;
      var others := all - {a};
      forall u | u in image - {f(a)}
        ensures exists x :: x in others && f(x) == u
      {
        var x :| x in all && f(x) == u;
        assert x in others;
      }
      ImageSize(others, f, image - {f(a)});
      assert image == image - {f(a)} + {f(a)};
    }
  }

  /** A table's entries stand for the candidates, by their digests and with their ranks. */
  ghost predicate StandsFor<I, T>(table: map<nat, Entry<I>>, all: set<T>, name: T -> nat, rank: T -> seq<int>) {
    && Injective(all, name)
    && (forall x :: x in all ==> name(x) in table && RowOf(table, name(x)).rank == rank(x))
    && (forall key :: key in table ==> exists x :: x in all && name(x) == key)
  }

  /** The candidates whose digests are the greatest are the greatest candidates. */
  lemma NamedTop<I, T>(table: map<nat, Entry<I>>, keys: set<nat>, limit: nat, all: set<T>, kept: set<T>, name: T -> nat,
                       rank: T -> seq<int>)
    requires IsTopOf(table, keys, limit) && StandsFor(table, all, name, rank)
    requires forall x :: x in kept <==> x in all && name(x) in keys
    ensures Greatest(all, kept, rank, limit)
  {
    ImageSize(all, name, table.Keys);
    ImageSize(kept, name, keys);
    RowsSize(table, table.Keys);
    RowsSize(table, keys);
    forall k, d | k in kept && d in all && d !in kept
      ensures Less(rank(d), rank(k))
    {
      assert RowOf(table, name(k)) in Rows(table, keys);
      assert RowOf(table, name(d)) in Rows(table, table.Keys);
    }
  }

  lemma RowsSize<I>(table: map<nat, Entry<I>>, keys: set<nat>)
    requires keys <= table.Keys
    ensures |Rows(table, keys)| == |keys|
  {
    var item := (r: Ranked<nat>) => r.item;
    forall key | key in keys
      ensures exists r :: r in Rows(table, keys) && item(r) == key
    {
      assert item(RowOf(table, key)) == key;
    }
    ImageSize(Rows(table, keys), item, keys);
  }

  // ----- Functions -----

  function KeysIn(rows: seq<Row>): set<Key> {
    set row | row in rows :: row.key
  }

  /** What ranks a function: its self time and its total time over all reports, and in the end its digest. */
  function FunctionRank(rows: seq<Row>, digest: Key -> nat): Key -> seq<int> {
    (key: Key) => [SumOf(rows, key, None).self, SumOf(rows, key, None).total, digest(key)]
  }

  /** A function goes before another by self time, then total time, and in the end by its digest. */
  predicate Before(rows: seq<Row>, digest: Key -> nat, key: Key, other: Key) {
    var sum, otherSum := SumOf(rows, key, None), SumOf(rows, other, None);
    || sum.self > otherSum.self
    || (sum.self == otherSum.self && sum.total > otherSum.total)
    || (sum.self == otherSum.self && sum.total == otherSum.total && digest(key) > digest(other))
  }

  lemma BeforeIff(rows: seq<Row>, digest: Key -> nat, key: Key, other: Key)
    ensures Less(FunctionRank(rows, digest)(other), FunctionRank(rows, digest)(key)) <==> Before(rows, digest, key, other)
  {
    var sum, otherSum := SumOf(rows, key, None), SumOf(rows, other, None);
    LessOfThree(otherSum.self, otherSum.total, digest(other), sum.self, sum.total, digest(key));
  }

  /** Each function kept goes before each that is left out, and as many as may be are kept. */
  ghost predicate FirstFunctions(rows: seq<Row>, digest: Key -> nat, kept: set<Key>, limit: nat) {
    && kept <= KeysIn(rows) && |kept| == (if |KeysIn(rows)| <= limit then |KeysIn(rows)| else limit)
    && (forall key, other :: key in kept && other in KeysIn(rows) && other !in kept ==> Before(rows, digest, key, other))
  }

  lemma GreatestAreFirst(rows: seq<Row>, digest: Key -> nat, kept: set<Key>, limit: nat)
    requires Greatest(KeysIn(rows), kept, FunctionRank(rows, digest), limit)
    ensures FirstFunctions(rows, digest, kept, limit)
  {
    forall key, other | key in kept && other in KeysIn(rows) && other !in kept
      ensures Before(rows, digest, key, other)
    {
      BeforeIff(rows, digest, key, other);
    }
  }

  /** The functions kept are the greatest ones by self time and then total time, both summed over all processes. */
  lemma KeepsGreatestFunctions(rows: seq<Row>, choice: Choice, table: map<nat, Entry<Key>>, limit: nat)
    requires IsTable(table, Contributions(rows, choice)) && IsTopOf(table, choice.functions, limit)
    ensures Greatest(KeysIn(rows), MergedOf(rows, choice).functions.Keys, FunctionRank(rows, choice.digest), limit)
    ensures FirstFunctions(rows, choice.digest, MergedOf(rows, choice).functions.Keys, limit)
  {
    var contributions := Contributions(rows, choice);
    TableConsistent(table, contributions);
    forall key
      ensures key in MergedOf(rows, choice).functions <==> key in KeysIn(rows) && choice.digest(key) in choice.functions
    {
      MergedFigures(rows, choice, key, 0);
    }
    FunctionsStand(rows, choice, table);
    NamedTop(table, choice.functions, limit, KeysIn(rows), MergedOf(rows, choice).functions.Keys, choice.digest,
             FunctionRank(rows, choice.digest));
    GreatestAreFirst(rows, choice.digest, MergedOf(rows, choice).functions.Keys, limit);
  }

  lemma FunctionsStand(rows: seq<Row>, choice: Choice, table: map<nat, Entry<Key>>)
    requires IsTable(table, Contributions(rows, choice)) && Consistent(Contributions(rows, choice))
    ensures StandsFor(table, KeysIn(rows), choice.digest, FunctionRank(rows, choice.digest))
  {
    var contributions := Contributions(rows, choice);
    forall key | key in KeysIn(rows)
      ensures choice.digest(key) in table && table[choice.digest(key)].identity == key
      ensures RowOf(table, choice.digest(key)).rank == FunctionRank(rows, choice.digest)(key)
    {
      var i :| 0 <= i < |rows| && rows[i].key == key;
      assert contributions[i].key == choice.digest(key);
      RanksAreSums(rows, choice, key);
      assert ScoresOf(contributions, choice.digest(key)) == TableScores(table, choice.digest(key));
    }
    forall digest | digest in table
      ensures exists key :: key in KeysIn(rows) && choice.digest(key) == digest
    {
      var i :| 0 <= i < |contributions| && contributions[i].key == digest;
      assert rows[i].key in KeysIn(rows);
    }
  }

  // ----- Edges -----

  /** What the ranking of edges is given: each edge between distinct selected functions, by total time and then calls. */
  function EdgeContributions(calls: seq<Call>, choice: Choice): seq<Contribution<nat>> {
    if calls == [] then []
    else
      var call := calls[|calls| - 1];
      var digest := EdgeDigest(choice.digest, call.source, call.target);
      EdgeContributions(calls[..|calls| - 1], choice)
      + (if Joins(choice, call) then [Contribution(digest, digest, call.figures.total, call.figures.calls)] else [])
  }

  function PairOf(call: Call): Pair {
    Pair(call.source, call.target)
  }

  function PairsIn(calls: seq<Call>, choice: Choice): set<Pair> {
    set call | call in calls && Joins(choice, call) :: PairOf(call)
  }

  function PairDigest(digest: Key -> nat): Pair -> nat {
    (pair: Pair) => EdgeDigest(digest, pair.source, pair.target)
  }

  function EdgeRank(calls: seq<Call>, digest: Key -> nat): Pair -> seq<int> {
    (pair: Pair) => [SumOfCalls(calls, pair).total, SumOfCalls(calls, pair).calls, PairDigest(digest)(pair)]
  }

  /** Digests are in range, and those of the functions are told apart, as the ranking of functions makes sure. */
  ghost predicate ToldApart(rows: seq<Row>, digest: Key -> nat) {
    (forall key :: digest(key) < DIGESTS) && Injective(KeysIn(rows), digest)
  }

  /** In a report every edge joins functions of the report. */
  ghost predicate EndsIn(calls: seq<Call>, rows: seq<Row>) {
    forall i :: 0 <= i < |calls| ==> calls[i].source in KeysIn(rows) && calls[i].target in KeysIn(rows)
  }

  lemma DigestsSplit(a: nat, b: nat, c: nat, d: nat)
    requires b < DIGESTS && d < DIGESTS && a * DIGESTS + b == c * DIGESTS + d
    ensures a == c && b == d
  {
  }

  lemma PairsToldApart(rows: seq<Row>, digest: Key -> nat, a: Pair, b: Pair)
    requires ToldApart(rows, digest) && PairDigest(digest)(a) == PairDigest(digest)(b)
    requires a.source in KeysIn(rows) && a.target in KeysIn(rows) && b.source in KeysIn(rows) && b.target in KeysIn(rows)
    ensures a == b
  {
    DigestsSplit(digest(a.source), digest(a.target), digest(b.source), digest(b.target));
  }

  lemma ScoresWith<I>(before: seq<Contribution<I>>, last: Contribution<I>, key: nat)
    ensures var scores := ScoresOf(before, key);
            ScoresOf(before + [last], key)
            == if last.key != key then scores else Scores(scores.primary + last.primary, scores.secondary + last.secondary)
  {
    assert (before + [last])[..|before|] == before;
  }

  /** An edge's scores are its summed total time and calls. */
  lemma {:induction false} EdgeScores(rows: seq<Row>, calls: seq<Call>, choice: Choice, pair: Pair)
    requires ToldApart(rows, choice.digest) && EndsIn(calls, rows)
    requires pair.source in KeysIn(rows) && pair.target in KeysIn(rows)
    requires Joins(choice, Call(pair.source, pair.target, EdgeFigures(0, 0)))
    ensures var sum := SumOfCalls(calls, pair);
            ScoresOf(EdgeContributions(calls, choice), PairDigest(choice.digest)(pair)) == Scores(sum.total, sum.calls)
  {
    if calls != [] {
      var n := |calls| - 1;
      var call := calls[n];
      var before := EdgeContributions(calls[..n], choice);
      EdgeScores(rows, calls[..n], choice, pair);
      if Joins(choice, call) {
        var digest := EdgeDigest(choice.digest, call.source, call.target);
        var last := Contribution(digest, digest, call.figures.total, call.figures.calls);
        assert EdgeContributions(calls, choice) == before + [last];
        ScoresWith(before, last, PairDigest(choice.digest)(pair));
        if PairOf(call) != pair && digest == PairDigest(choice.digest)(pair) {
          PairsToldApart(rows, choice.digest, PairOf(call), pair);
        }
      } else {
        assert EdgeContributions(calls, choice) == before;
        assert PairOf(call) != pair;
      }
    }
  }

  /** What one more call contributes. */
  lemma MoreContributions(calls: seq<Call>, n: nat, choice: Choice)
    requires |calls| == n + 1
    ensures var digest := PairDigest(choice.digest)(PairOf(calls[n]));
            EdgeContributions(calls, choice)
            == EdgeContributions(calls[..n], choice)
               + (if Joins(choice, calls[n])
                  then [Contribution(digest, digest, calls[n].figures.total, calls[n].figures.calls)] else [])
  {
  }

  /** Each contribution is that of a joining call, by which it is identified. */
  lemma {:induction false} ContributionsAre(calls: seq<Call>, choice: Choice)
    ensures forall c :: c in EdgeContributions(calls, choice) ==>
              && c.identity == c.key
              && exists pair :: pair in PairsIn(calls, choice) && PairDigest(choice.digest)(pair) == c.key
  {
    if calls != [] {
      var n := |calls| - 1;
      ContributionsAre(calls[..n], choice);
      MorePairs(calls, n, choice);
      MoreContributions(calls, n, choice);
    }
  }

  /** And each joining call contributes. */
  lemma {:induction false} PairsContribute(calls: seq<Call>, choice: Choice, pair: Pair)
    requires pair in PairsIn(calls, choice)
    ensures exists c :: c in EdgeContributions(calls, choice) && c.key == PairDigest(choice.digest)(pair)
  {
    var n := |calls| - 1;
    var contributions := EdgeContributions(calls, choice);
    MorePairs(calls, n, choice);
    MoreContributions(calls, n, choice);
    if pair in PairsIn(calls[..n], choice) {
      PairsContribute(calls[..n], choice, pair);
      var c :| c in EdgeContributions(calls[..n], choice) && c.key == PairDigest(choice.digest)(pair);
      assert c in contributions;
    } else {
      assert contributions[|contributions| - 1].key == PairDigest(choice.digest)(pair);
    }
  }

  lemma MorePairs(calls: seq<Call>, n: nat, choice: Choice)
    requires |calls| == n + 1
    ensures PairsIn(calls, choice)
            == PairsIn(calls[..n], choice) + (if Joins(choice, calls[n]) then {PairOf(calls[n])} else {})
  {
    assert calls == calls[..n] + [calls[n]];
  }

  lemma EdgeStands(rows: seq<Row>, calls: seq<Call>, choice: Choice, table: map<nat, Entry<nat>>, pair: Pair)
    requires ToldApart(rows, choice.digest) && EndsIn(calls, rows)
    requires IsTable(table, EdgeContributions(calls, choice)) && pair in PairsIn(calls, choice)
    ensures var key := PairDigest(choice.digest)(pair);
            key in table && RowOf(table, key).rank == EdgeRank(calls, choice.digest)(pair)
  {
    PairsContribute(calls, choice, pair);
    EdgeScores(rows, calls, choice, pair);
    var key := PairDigest(choice.digest)(pair);
    assert ScoresOf(EdgeContributions(calls, choice), key) == TableScores(table, key);
  }

  lemma EdgesStand(rows: seq<Row>, calls: seq<Call>, choice: Choice, table: map<nat, Entry<nat>>)
    requires ToldApart(rows, choice.digest) && EndsIn(calls, rows)
    requires IsTable(table, EdgeContributions(calls, choice))
    ensures StandsFor(table, PairsIn(calls, choice), PairDigest(choice.digest), EdgeRank(calls, choice.digest))
  {
    var name := PairDigest(choice.digest);
    ContributionsAre(calls, choice);
    forall pair | pair in PairsIn(calls, choice)
      ensures name(pair) in table && RowOf(table, name(pair)).rank == EdgeRank(calls, choice.digest)(pair)
    {
      EdgeStands(rows, calls, choice, table, pair);
    }
    forall a, b | a in PairsIn(calls, choice) && b in PairsIn(calls, choice) && name(a) == name(b)
      ensures a == b
    {
      PairsToldApart(rows, choice.digest, a, b);
    }
  }

  lemma {:induction false} KeptPairs(calls: seq<Call>, choice: Choice)
    ensures forall pair :: pair in EdgesOf(calls, choice).edges <==>
              pair in PairsIn(calls, choice) && PairDigest(choice.digest)(pair) in choice.edges
  {
    if calls != [] {
      KeptPairs(calls[..|calls| - 1], choice);
      MorePairs(calls, |calls| - 1, choice);
    }
  }

  /** An edge goes before another by total time, then calls, and in the end by the digests of its source and its target. */
  predicate EdgeBefore(calls: seq<Call>, digest: Key -> nat, pair: Pair, other: Pair) {
    var sum, otherSum := SumOfCalls(calls, pair), SumOfCalls(calls, other);
    || sum.total > otherSum.total
    || (sum.total == otherSum.total && sum.calls > otherSum.calls)
    || (sum.total == otherSum.total && sum.calls == otherSum.calls && digest(pair.source) > digest(other.source))
    || (sum.total == otherSum.total && sum.calls == otherSum.calls && digest(pair.source) == digest(other.source)
        && digest(pair.target) > digest(other.target))
  }

  lemma DigestsOrder(a: nat, b: nat, c: nat, d: nat)
    requires b < DIGESTS && d < DIGESTS
    ensures a * DIGESTS + b < c * DIGESTS + d <==> a < c || (a == c && b < d)
  {
  }

  lemma EdgeBeforeIff(calls: seq<Call>, digest: Key -> nat, pair: Pair, other: Pair)
    requires forall key :: digest(key) < DIGESTS
    ensures Less(EdgeRank(calls, digest)(other), EdgeRank(calls, digest)(pair)) <==> EdgeBefore(calls, digest, pair, other)
  {
    var sum, otherSum := SumOfCalls(calls, pair), SumOfCalls(calls, other);
    LessOfThree(otherSum.total, otherSum.calls, PairDigest(digest)(other), sum.total, sum.calls, PairDigest(digest)(pair));
    DigestsOrder(digest(other.source), digest(other.target), digest(pair.source), digest(pair.target));
    DigestsOrder(digest(pair.source), digest(pair.target), digest(other.source), digest(other.target));
  }

  ghost predicate FirstEdges(calls: seq<Call>, digest: Key -> nat, pairs: set<Pair>, kept: set<Pair>, limit: nat) {
    && kept <= pairs && |kept| == (if |pairs| <= limit then |pairs| else limit)
    && (forall pair, other :: pair in kept && other in pairs && other !in kept ==> EdgeBefore(calls, digest, pair, other))
  }

  lemma GreatestEdgesAreFirst(calls: seq<Call>, digest: Key -> nat, pairs: set<Pair>, kept: set<Pair>, limit: nat)
    requires Greatest(pairs, kept, EdgeRank(calls, digest), limit) && forall key :: digest(key) < DIGESTS
    ensures FirstEdges(calls, digest, pairs, kept, limit)
  {
    forall pair, other | pair in kept && other in pairs && other !in kept
      ensures EdgeBefore(calls, digest, pair, other)
    {
      EdgeBeforeIff(calls, digest, pair, other);
    }
  }

  /** The edges kept are the greatest ones between distinct kept functions, by summed total time and then calls. */
  lemma KeepsGreatestEdges(rows: seq<Row>, calls: seq<Call>, choice: Choice, table: map<nat, Entry<nat>>, limit: nat)
    requires ToldApart(rows, choice.digest) && EndsIn(calls, rows)
    requires IsTable(table, EdgeContributions(calls, choice)) && IsTopOf(table, choice.edges, limit)
    ensures Greatest(PairsIn(calls, choice), EdgesOf(calls, choice).edges.Keys, EdgeRank(calls, choice.digest), limit)
    ensures FirstEdges(calls, choice.digest, PairsIn(calls, choice), EdgesOf(calls, choice).edges.Keys, limit)
  {
    EdgesStand(rows, calls, choice, table);
    KeptPairs(calls, choice);
    NamedTop(table, choice.edges, limit, PairsIn(calls, choice), EdgesOf(calls, choice).edges.Keys,
             PairDigest(choice.digest), EdgeRank(calls, choice.digest));
    GreatestEdgesAreFirst(calls, choice.digest, PairsIn(calls, choice), EdgesOf(calls, choice).edges.Keys, limit);
  }

  // ----- What is selected -----

  /** The functions selected are the greatest of all that occur, and nothing else is. */
  ghost predicate FunctionsChosen(rows: seq<Row>, choice: Choice, limit: nat) {
    && Greatest(KeysIn(rows), MergedOf(rows, choice).functions.Keys, FunctionRank(rows, choice.digest), limit)
    && (forall d :: d in choice.functions ==> exists key :: key in KeysIn(rows) && choice.digest(key) == d)
  }

  /** The edges selected are the greatest of those between selected functions, and nothing else is. */
  ghost predicate EdgesChosen(calls: seq<Call>, choice: Choice, limit: nat) {
    && Greatest(PairsIn(calls, choice), EdgesOf(calls, choice).edges.Keys, EdgeRank(calls, choice.digest), limit)
    && (forall d :: d in choice.edges ==> exists pair :: pair in PairsIn(calls, choice) && PairDigest(choice.digest)(pair) == d)
  }

  lemma SameFunctions(rows: seq<Row>, first: Choice, second: Choice, limit: nat)
    requires first.digest == second.digest && FunctionsChosen(rows, first, limit) && FunctionsChosen(rows, second, limit)
    ensures first.functions <= second.functions
  {
    GreatestIsUnique(KeysIn(rows), MergedOf(rows, first).functions.Keys, MergedOf(rows, second).functions.Keys,
                     FunctionRank(rows, first.digest), limit);
    forall d | d in first.functions
      ensures d in second.functions
    {
      var key :| key in KeysIn(rows) && first.digest(key) == d;
      assert Occurs(rows, key) by {
        var row :| row in rows && row.key == key;
        var i :| 0 <= i < |rows| && rows[i] == row;
      }
      MergedFigures(rows, first, key, 0);
      MergedFigures(rows, second, key, 0);
    }
  }

  /** There is one choice of functions, and given it one of edges. */
  lemma FunctionsChosenOnce(rows: seq<Row>, first: Choice, second: Choice, limit: nat)
    requires first.digest == second.digest && FunctionsChosen(rows, first, limit) && FunctionsChosen(rows, second, limit)
    ensures first.functions == second.functions
  {
    SameFunctions(rows, first, second, limit);
    SameFunctions(rows, second, first, limit);
  }

  lemma SameEdges(calls: seq<Call>, first: Choice, second: Choice, limit: nat)
    requires first.digest == second.digest && first.functions == second.functions
    requires EdgesChosen(calls, first, limit) && EdgesChosen(calls, second, limit)
    ensures first.edges <= second.edges
  {
    SamePairs(calls, first, second);
    GreatestIsUnique(PairsIn(calls, first), EdgesOf(calls, first).edges.Keys, EdgesOf(calls, second).edges.Keys,
                     EdgeRank(calls, first.digest), limit);
    KeptPairs(calls, first);
    KeptPairs(calls, second);
  }

  lemma SamePairs(calls: seq<Call>, first: Choice, second: Choice)
    requires first.digest == second.digest && first.functions == second.functions
    ensures PairsIn(calls, first) == PairsIn(calls, second)
  {
    assert forall call :: Joins(first, call) <==> Joins(second, call);
  }

  lemma EdgesChosenOnce(calls: seq<Call>, first: Choice, second: Choice, limit: nat)
    requires first.digest == second.digest && first.functions == second.functions
    requires EdgesChosen(calls, first, limit) && EdgesChosen(calls, second, limit)
    ensures first.edges == second.edges
  {
    SameEdges(calls, first, second, limit);
    SameEdges(calls, second, first, limit);
  }

  lemma ChoosesFunctions(rows: seq<Row>, choice: Choice, table: map<nat, Entry<Key>>, limit: nat)
    requires IsTable(table, Contributions(rows, choice)) && IsTopOf(table, choice.functions, limit)
    ensures FunctionsChosen(rows, choice, limit)
  {
    KeepsGreatestFunctions(rows, choice, table, limit);
    TableConsistent(table, Contributions(rows, choice));
    FunctionsStand(rows, choice, table);
  }

  lemma ChoosesEdges(rows: seq<Row>, calls: seq<Call>, choice: Choice, table: map<nat, Entry<nat>>, limit: nat)
    requires ToldApart(rows, choice.digest) && EndsIn(calls, rows)
    requires IsTable(table, EdgeContributions(calls, choice)) && IsTopOf(table, choice.edges, limit)
    ensures EdgesChosen(calls, choice, limit)
  {
    KeepsGreatestEdges(rows, calls, choice, table, limit);
    EdgesStand(rows, calls, choice, table);
  }

  // ----- The two passes -----

  /** What is read of each report is in range. */
  predicate Loaded(rows: seq<Row>, calls: seq<Call>) {
    && (forall i :: 0 <= i < |rows| ==> Representable(rows[i].figures))
    && (forall i :: 0 <= i < |calls| ==> EdgeRepresentable(calls[i].figures))
  }

  lemma {:induction false} EdgeContributionsFit(calls: seq<Call>, choice: Choice)
    requires forall i :: 0 <= i < |calls| ==> EdgeRepresentable(calls[i].figures)
    ensures forall c :: c in EdgeContributions(calls, choice) ==> Fits(Scores(c.primary, c.secondary))
  {
    if calls != [] {
      EdgeContributionsFit(calls[..|calls| - 1], choice);
      assert EdgeRepresentable(calls[|calls| - 1].figures);
    }
  }

  lemma EdgesConsistent(calls: seq<Call>, choice: Choice)
    ensures Consistent(EdgeContributions(calls, choice))
  {
    ContributionsAre(calls, choice);
  }

  datatype Profile = Profile(functions: Merged, edges: MergedEdges, choice: Choice)

  datatype MergeError = Ranks(error: RankError) | SumOutOfRange

  ghost predicate RanksFit(rows: seq<Row>, digest: Key -> nat) {
    Injective(KeysIn(rows), digest) && InRange(Contributions(rows, Choice(digest, {}, {})))
  }

  /** The sums of what is selected and of what is not are in range, and so are the ranks of the edges. */
  ghost predicate SumsFit(rows: seq<Row>, calls: seq<Call>, choice: Choice) {
    InRange(EdgeContributions(calls, choice)) && AllRepresentable(rows, choice) && EdgesRepresentable(calls, choice)
  }

  ghost predicate Chosen(rows: seq<Row>, calls: seq<Call>, digest: Key -> nat, limits: (nat, nat), choice: Choice) {
    choice.digest == digest && FunctionsChosen(rows, choice, limits.0) && EdgesChosen(calls, choice, limits.1)
  }

  ghost predicate Mergeable(rows: seq<Row>, calls: seq<Call>, digest: Key -> nat, limits: (nat, nat)) {
    && RanksFit(rows, digest)
    && exists choice :: Chosen(rows, calls, digest, limits, choice) && SumsFit(rows, calls, choice)
  }

  lemma ChosenOnce(rows: seq<Row>, calls: seq<Call>, digest: Key -> nat, limits: (nat, nat), first: Choice, second: Choice)
    requires Chosen(rows, calls, digest, limits, first) && Chosen(rows, calls, digest, limits, second)
    ensures first == second
  {
    FunctionsChosenOnce(rows, first, second, limits.0);
    EdgesChosenOnce(calls, first, second, limits.1);
  }

  /** A choice that does not fit is not mergeable, since there is no other. */
  lemma NotMergeable(rows: seq<Row>, calls: seq<Call>, digest: Key -> nat, limits: (nat, nat), choice: Choice)
    requires Chosen(rows, calls, digest, limits, choice) && !SumsFit(rows, calls, choice)
    ensures !Mergeable(rows, calls, digest, limits)
  {
    forall other | Chosen(rows, calls, digest, limits, other)
      ensures !SumsFit(rows, calls, other)
    {
      ChosenOnce(rows, calls, digest, limits, choice, other);
    }
  }

  /** Nor is it when the ranks of the edges between the selected functions are out of range. */
  lemma EdgesNotRanked(rows: seq<Row>, calls: seq<Call>, digest: Key -> nat, limits: (nat, nat), chosen: Choice)
    requires chosen.digest == digest && FunctionsChosen(rows, chosen, limits.0)
    requires !InRange(EdgeContributions(calls, chosen))
    ensures !Mergeable(rows, calls, digest, limits)
  {
    forall other | Chosen(rows, calls, digest, limits, other)
      ensures !SumsFit(rows, calls, other)
    {
      FunctionsChosenOnce(rows, chosen, other, limits.0);
      SameCandidates(calls, chosen, other);
    }
  }

  /** The first pass: ranks and selects the functions. */
  method SelectFunctions(rows: seq<Row>, digest: Key -> nat, limit: nat) returns (result: Result<set<nat>, RankError>)
    requires limit > 0 && forall i :: 0 <= i < |rows| ==> Representable(rows[i].figures)
    ensures result.Ok? <==> RanksFit(rows, digest)
    ensures result.Ok? ==> FunctionsChosen(rows, Choice(digest, result.value, {}), limit)
    ensures result == Err(IdentitiesConflict) ==> !Injective(KeysIn(rows), digest)
    ensures result == Err(RankError.OutOfRange) ==> !InRange(Contributions(rows, Choice(digest, {}, {})))
  {
    var unchosen := Choice(digest, {}, {});
    var ranker := new AggregateRanker<Key>();
    var error := ranker.AddAll(Contributions(rows, unchosen));
    ConsistentIff(rows, unchosen);
    if error.Some? {
      return Err(error.value);
    }
    var functions := ranker.SelectedKeys(limit);
    assert Contributions(rows, Choice(digest, functions, {})) == Contributions(rows, unchosen);
    ChoosesFunctions(rows, Choice(digest, functions, {}), ranker.table, limit);
    return Ok(functions);
  }

  /** The second: ranks and selects the edges between them. */
  method SelectEdges(rows: seq<Row>, calls: seq<Call>, chosen: Choice, limit: nat) returns (result: Result<set<nat>, RankError>)
    requires limit > 0 && forall i :: 0 <= i < |calls| ==> EdgeRepresentable(calls[i].figures)
    requires ToldApart(rows, chosen.digest) && EndsIn(calls, rows)
    ensures result.Ok? <==> InRange(EdgeContributions(calls, chosen))
    ensures result.Ok? ==> EdgesChosen(calls, chosen.(edges := result.value), limit)
    ensures result.Err? ==> result.error == RankError.OutOfRange
  {
    var ranker := new AggregateRanker<nat>();
    EdgeContributionsFit(calls, chosen);
    var contributions := ContributionsOf(calls, chosen);
    var error := ranker.AddAll(contributions);
    EdgesConsistent(calls, chosen);
    if error.Some? {
      return Err(error.value);
    }
    var edges := ranker.SelectedKeys(limit);
    SameCandidates(calls, chosen, chosen.(edges := edges));
    ChoosesEdges(rows, calls, chosen.(edges := edges), ranker.table, limit);
    return Ok(edges);
  }

  /**
   Ranks and selects the functions, merges what is selected of them, and does the same with the edges between them. What is
   kept are the greatest functions and the greatest edges. Refused is exactly what has conflicting digests, or a rank or a sum
   out of range.
   */
  method MergeProfiles(rows: seq<Row>, calls: seq<Call>, digest: Key -> nat, functionLimit: nat, edgeLimit: nat)
    returns (result: Result<Profile, MergeError>)
    requires functionLimit > 0 && edgeLimit > 0
    requires Loaded(rows, calls) && EndsIn(calls, rows) && forall key :: digest(key) < DIGESTS
    ensures result.Ok? <==> Mergeable(rows, calls, digest, (functionLimit, edgeLimit))
    ensures result.Ok? ==>
              && var Profile(functions, edges, choice) := result.value;
              && functions == MergedOf(rows, choice) && edges == EdgesOf(calls, choice)
              && Chosen(rows, calls, digest, (functionLimit, edgeLimit), choice)
              && FirstFunctions(rows, digest, functions.functions.Keys, functionLimit)
              && FirstEdges(calls, digest, PairsIn(calls, choice), edges.edges.Keys, edgeLimit)
    ensures result == Err(Ranks(IdentitiesConflict)) ==> !Injective(KeysIn(rows), digest)
    ensures result == Err(SumOutOfRange) ==> RanksFit(rows, digest)
  {
    ghost var limits := (functionLimit, edgeLimit);
    var selected := SelectFunctions(rows, digest, functionLimit);
    if selected.Err? {
      return Err(Ranks(selected.error));
    }
    var chosen := Choice(digest, selected.value, {});
    var selectedEdges := SelectEdges(rows, calls, chosen, edgeLimit);
    if selectedEdges.Err? {
      EdgesNotRanked(rows, calls, digest, limits, chosen);
      return Err(Ranks(selectedEdges.error));
    }
    var choice := chosen.(edges := selectedEdges.value);
    ChosenStays(rows, calls, chosen, choice, functionLimit);
    var merger := new Merger(choice);
    var ok := merger.AddRows(rows);
    if ok {
      ok := merger.AddCalls(calls);
    }
    if !ok {
      NotMergeable(rows, calls, digest, limits, choice);
      return Err(SumOutOfRange);
    }
    assert SumsFit(rows, calls, choice);
    GreatestAreFirst(rows, digest, merger.functions.Keys, functionLimit);
    GreatestEdgesAreFirst(calls, digest, PairsIn(calls, choice), merger.edges.Keys, edgeLimit);
    return Ok(Profile(Merged(merger.functions, merger.dropped),
                      MergedEdges(merger.edges, merger.droppedEdges, merger.truncated), choice));
  }

  /** What is selected of the functions has nothing to do with what is selected of the edges. */
  lemma ChosenStays(rows: seq<Row>, calls: seq<Call>, chosen: Choice, choice: Choice, limit: nat)
    requires choice.digest == chosen.digest && choice.functions == chosen.functions && FunctionsChosen(rows, chosen, limit)
    ensures FunctionsChosen(rows, choice, limit) && EdgeContributions(calls, choice) == EdgeContributions(calls, chosen)
  {
    SameCandidates(calls, chosen, choice);
    SameMerged(rows, chosen, choice);
  }

  lemma {:induction false} SameMerged(rows: seq<Row>, chosen: Choice, choice: Choice)
    requires choice.digest == chosen.digest && choice.functions == chosen.functions
    ensures MergedOf(rows, choice) == MergedOf(rows, chosen)
  {
    if rows != [] {
      SameMerged(rows[..|rows| - 1], chosen, choice);
    }
  }

  /**
   An exception that gets lost: of a Python function and a native one that raised, only the first is selected, and the
   exception of the second is counted nowhere.
   */
  lemma ExceptionLost(digest: Key -> nat, python: Key, native: Key)
    requires !IsNative(python) && IsNative(native) && digest(python) != digest(native)
    ensures var rows := [Row(1, python, Figures(1, 2, 2, 2, 0, 0)), Row(1, native, Figures(1, 1, 1, 1, 1, 0))];
            var choice := Choice(digest, {digest(python)}, {});
            var m := MergedOf(rows, choice);
            && FunctionsChosen(rows, choice, 1)
            && MapSum(CountsIn(m.functions, Exceptions)) + m.dropped.exceptions == 0 && TotalOf(rows, Exceptions) == 1
  {
    var kept, left := Row(1, python, Figures(1, 2, 2, 2, 0, 0)), Row(1, native, Figures(1, 1, 1, 1, 1, 0));
    var rows := [kept, left];
    var choice := Choice(digest, {digest(python)}, {});
    assert rows[..1] == [kept] && [kept][..0] == [];
    var first := WithRow(MergedOf([], choice), kept, choice);
    assert MergedOf([kept], choice) == first;
    assert MergedOf(rows, choice) == WithRow(first, left, choice);
    LostSums(kept, left);
    Conserves(rows, choice, Exceptions);
    assert Uncounted([kept], choice, Exceptions) == 0 && Uncounted(rows, choice, Exceptions) == 1;
    assert KeysIn(rows) == {python, native};
    assert MergedOf(rows, choice).functions.Keys == {python};
  }

  lemma LostSums(kept: Row, left: Row)
    requires kept.key != left.key && kept.figures == Figures(1, 2, 2, 2, 0, 0) && left.figures == Figures(1, 1, 1, 1, 1, 0)
    ensures SumOf([kept, left], kept.key, None) == kept.figures && SumOf([kept, left], left.key, None) == left.figures
    ensures TotalOf([kept, left], Exceptions) == 1
  {
    assert [kept, left][..1] == [kept] && [kept][..0] == [];
    assert SumOf([kept], kept.key, None) == kept.figures && SumOf([kept], left.key, None) == ZERO;
    assert TotalOf([kept], Exceptions) == 0;
  }

  /** The edges that are ranked, report by report. */
  method ContributionsOf(calls: seq<Call>, choice: Choice) returns (contributions: seq<Contribution<nat>>)
    ensures contributions == EdgeContributions(calls, choice)
  {
    contributions := [];
    assert calls[..0] == [];
    for i := 0 to |calls|
      invariant contributions == EdgeContributions(calls[..i], choice)
    {
      assert calls[..i + 1][..i] == calls[..i];
      var call := calls[i];
      if call.source == call.target || !Kept(choice, call.source) || !Kept(choice, call.target) {
        continue;
      }
      var digest := EdgeDigest(choice.digest, call.source, call.target);
      contributions := contributions + [Contribution(digest, digest, call.figures.total, call.figures.calls)];
    }
    assert calls[..|calls|] == calls;
  }

  /** Digests conflict exactly when they do not tell the functions apart. */
  lemma ConsistentIff(rows: seq<Row>, choice: Choice)
    ensures Consistent(Contributions(rows, choice)) <==> Injective(KeysIn(rows), choice.digest)
  {
    var contributions := Contributions(rows, choice);
    if Consistent(contributions) {
      forall a, b | a in KeysIn(rows) && b in KeysIn(rows) && choice.digest(a) == choice.digest(b)
        ensures a == b
      {
        var i :| 0 <= i < |rows| && rows[i].key == a;
        var j :| 0 <= j < |rows| && rows[j].key == b;
        assert contributions[i].identity == contributions[j].identity;
      }
    }
    if Injective(KeysIn(rows), choice.digest) {
      forall i, j | 0 <= i < |contributions| && 0 <= j < |contributions| && contributions[i].key == contributions[j].key
        ensures contributions[i].identity == contributions[j].identity
      {
        assert rows[i].key in KeysIn(rows) && rows[j].key in KeysIn(rows);
      }
    }
  }

  lemma {:induction false} SameCandidates(calls: seq<Call>, chosen: Choice, choice: Choice)
    requires choice.digest == chosen.digest && choice.functions == chosen.functions
    ensures EdgeContributions(calls, choice) == EdgeContributions(calls, chosen)
  {
    if calls != [] {
      SameCandidates(calls[..|calls| - 1], chosen, choice);
    }
  }
}

/**
 Bounded top-k selection (src/runtime_tools/deep_profile/_ranking.py, _http.py).

 `AggregateRanker` sums the scores of candidates under overflow and identity checks; `SelectTop` keeps the greatest candidates
 in one pass with a heap bounded by the limit, of which only the least element is ever looked at.
 */
module Ranking {
  import opened Integers
  import opened Results
  import opened Sets

  // ----- Ranks -----

  /** Lexicographic order of ranks of one length. */
  predicate Less(a: seq<int>, b: seq<int>) {
    if a == [] || b == [] then a == [] && b != []
    else a[0] < b[0] || (a[0] == b[0] && Less(a[1..], b[1..]))
  }

  /** Ranks are compared as numbers, at the first place in which they differ. */
  lemma {:induction false} LessIff(a: seq<int>, b: seq<int>)
    requires |a| == |b|
    ensures Less(a, b) <==> exists i :: 0 <= i < |a| && a[..i] == b[..i] && a[i] < b[i]
  {
    if a != [] {
      LessIff(a[1..], b[1..]);
      if a[0] == b[0] {
        forall i | 0 <= i < |a| - 1
          ensures a[1..][..i] == b[1..][..i] <==> a[..i + 1] == b[..i + 1]
        {
          assert a[..i + 1] == [a[0]] + a[1..][..i] && b[..i + 1] == [b[0]] + b[1..][..i];
        }
        if exists i :: 0 <= i < |a| && a[..i] == b[..i] && a[i] < b[i] {
          var i :| 0 <= i < |a| && a[..i] == b[..i] && a[i] < b[i];
          assert a[1..][..i - 1] == b[1..][..i - 1] && a[1..][i - 1] < b[1..][i - 1];
        }
        if Less(a, b) {
          var i :| 0 <= i < |a| - 1 && a[1..][..i] == b[1..][..i] && a[1..][i] < b[1..][i];
          assert a[..i + 1] == b[..i + 1] && a[i + 1] < b[i + 1];
        }
      } else {
        assert a[..0] == b[..0];
        forall i | 0 < i < |a|
          ensures a[..i] != b[..i]
        {
          assert a[..i][0] != b[..i][0];
        }
      }
    }
  }

  /** The first number decides, and between equal ones the rest. */
  lemma LessFirst(a: seq<int>, b: seq<int>)
    requires |a| == |b| > 0
    ensures Less(a, b) <==> a[0] < b[0] || (a[0] == b[0] && Less(a[1..], b[1..]))
  {
  }

  lemma LessOfThree(a: int, b: int, c: int, a': int, b': int, c': int)
    ensures Less([a, b, c], [a', b', c'])
            <==> a < a' || (a == a' && (b < b' || (b == b' && c < c')))
  {
    assert [a, b, c][1..] == [b, c] && [a', b', c'][1..] == [b', c'];
    assert [b, c][1..] == [c] && [b', c'][1..] == [c'];
    assert [c][1..] == [] && [c'][1..] == [];
    LessFirst([b, c], [b', c']);
    LessFirst([c], [c']);
  }

  lemma {:induction false} LessTotal(a: seq<int>, b: seq<int>)
    ensures Less(a, b) || a == b || Less(b, a)
    ensures !(Less(a, b) && Less(b, a)) && !Less(a, a)
    decreases |a|
  {
    if a != [] && b != [] {
      LessTotal(a[1..], b[1..]);
      if a[0] == b[0] && a[1..] == b[1..] {
        assert a == [a[0]] + a[1..] == b;
      }
    }
    if a != [] {
      LessTotal(a[1..], a[1..]);
    }
  }

  lemma {:induction false} LessTransitive(a: seq<int>, b: seq<int>, c: seq<int>)
    requires Less(a, b) && Less(b, c)
    ensures Less(a, c)
    decreases |a|
  {
    if a != [] && a[0] == b[0] == c[0] {
      LessTransitive(a[1..], b[1..], c[1..]);
    }
  }

  datatype Ranked<T> = Ranked(rank: seq<int>, item: T)

  ghost predicate DistinctRanks<T>(all: set<Ranked<T>>) {
    forall a, b :: a in all && b in all && a.rank == b.rank ==> a == b
  }

  /** The greatest `limit` of all, or all if there are no more. */
  ghost predicate IsTop<T>(all: set<Ranked<T>>, kept: set<Ranked<T>>, limit: nat) {
    && kept <= all
    && |kept| == (if |all| <= limit then |all| else limit)
    && (forall k, d :: k in kept && d in all && d !in kept ==> Less(d.rank, k.rank))
  }

  /** There is one way only to be the greatest `limit`, so the order in which candidates come does not matter. */
  lemma TopIsUnique<T>(all: set<Ranked<T>>, first: set<Ranked<T>>, second: set<Ranked<T>>, limit: nat)
    requires IsTop(all, first, limit) && IsTop(all, second, limit)
    ensures first == second
  {
    if first <= second {
      SubsetSize(first, second);
    } else {
      var a :| a in first && a !in second;
      if second <= first {
        SubsetSize(second, first);
      }
      var b :| b in second && b !in first;
      LessTotal(a.rank, b.rank);
      assert false;
    }
  }

  lemma {:induction false} HasLeast<T>(kept: set<Ranked<T>>) returns (least: Ranked<T>)
    requires kept != {} && DistinctRanks(kept)
    ensures least in kept && forall k :: k in kept && k != least ==> Less(least.rank, k.rank)
    decreases kept
  {
    var x :| x in kept;
    least := x;
    if kept != {x} {
      var rest := HasLeast(kept - {x});
      LessTotal(x.rank, rest.rank);
      least := if Less(x.rank, rest.rank) then x else rest;
      forall k | k in kept && k != least
        ensures Less(least.rank, k.rank)
      {
        if k != x && k != rest && least == x {
          LessTransitive(x.rank, rest.rank, k.rank);
        }
      }
    }
  }

  lemma TopGrows<T>(all: set<Ranked<T>>, kept: set<Ranked<T>>, limit: nat, next: Ranked<T>)
    requires IsTop(all, kept, limit) && next !in all && |kept| < limit
    ensures IsTop(all + {next}, kept + {next}, limit)
  {
    SubsetSize(kept, all);
  }

  lemma TopStays<T>(all: set<Ranked<T>>, kept: set<Ranked<T>>, limit: nat, next: Ranked<T>, least: Ranked<T>)
    requires IsTop(all, kept, limit) && next !in all && |kept| == limit
    requires least in kept && forall k :: k in kept && k != least ==> Less(least.rank, k.rank)
    requires Less(next.rank, least.rank)
    ensures IsTop(all + {next}, kept, limit)
  {
    forall k, d | k in kept && d in all + {next} && d !in kept
      ensures Less(d.rank, k.rank)
    {
      if d == next && k != least {
        LessTransitive(next.rank, least.rank, k.rank);
      }
    }
    SubsetSize(kept, all);
  }

  lemma TopReplaces<T>(all: set<Ranked<T>>, kept: set<Ranked<T>>, limit: nat, next: Ranked<T>, least: Ranked<T>)
    requires IsTop(all, kept, limit) && next !in all && |kept| == limit
    requires least in kept && forall k :: k in kept && k != least ==> Less(least.rank, k.rank)
    requires Less(least.rank, next.rank)
    ensures IsTop(all + {next}, kept - {least} + {next}, limit)
  {
    forall k, d | k in kept - {least} + {next} && d in all + {next} && d !in kept - {least} + {next}
      ensures Less(d.rank, k.rank)
    {
      if k == next && d != least {
        LessTransitive(d.rank, least.rank, next.rank);
      }
    }
    SubsetSize(kept, all);
  }

  function Members<T(==)>(all: seq<T>): set<T> {
    set x | x in all
  }

  ghost predicate Distinct<T>(candidates: seq<Ranked<T>>) {
    forall i, j :: 0 <= i < j < |candidates| ==> candidates[i].rank != candidates[j].rank
  }

  /** The next candidate is new, and the ones so far are told apart by their ranks. */
  lemma NextIsNew<T>(candidates: seq<Ranked<T>>, i: nat)
    requires Distinct(candidates) && i < |candidates|
    ensures Members(candidates[..i + 1]) == Members(candidates[..i]) + {candidates[i]}
    ensures DistinctRanks(Members(candidates[..i]))
    ensures forall c :: c in Members(candidates[..i]) ==> c.rank != candidates[i].rank
  {
    assert candidates[..i + 1] == candidates[..i] + [candidates[i]];
  }

  /** One pass over the candidates, in any order, with at most `limit` of them kept at any time. */
  method SelectTop<T(==)>(candidates: seq<Ranked<T>>, limit: nat) returns (kept: set<Ranked<T>>)
    requires limit > 0
    requires Distinct(candidates)
    ensures IsTop(Members(candidates), kept, limit)
  {
    kept := {};
    ghost var all: set<Ranked<T>> := {};
    for i := 0 to |candidates|
      invariant all == Members(candidates[..i])
      invariant IsTop(all, kept, limit)
    {
      var next := candidates[i];
      NextIsNew(candidates, i);
      if |kept| < limit {
        TopGrows(all, kept, limit, next);
        kept := kept + {next};
      } else {
        ghost var smallest := HasLeast(kept);
        var least :| least in kept && forall k :: k in kept && k != least ==> Less(least.rank, k.rank);
        LessTotal(least.rank, next.rank);
        if Less(least.rank, next.rank) {
          TopReplaces(all, kept, limit, next, least);
          kept := kept - {least} + {next};
        } else {
          TopStays(all, kept, limit, next, least);
        }
      }
      all := all + {next};
    }
    assert candidates[..|candidates|] == candidates;
  }

  // ----- Aggregate ranks -----

  /** Keys are digests of one length, compared as numbers. */
  datatype Contribution<I> = Contribution(key: nat, identity: I, primary: nat, secondary: nat)

  datatype Entry<I> = Entry(identity: I, primary: nat, secondary: nat)

  datatype RankError = IdentitiesConflict | OutOfRange

  datatype Scores = Scores(primary: nat, secondary: nat)

  function ScoresOf<I>(contributions: seq<Contribution<I>>, key: nat): Scores {
    if contributions == [] then Scores(0, 0)
    else
      var n := |contributions| - 1;
      var before := ScoresOf(contributions[..n], key);
      if contributions[n].key != key then before
      else Scores(before.primary + contributions[n].primary, before.secondary + contributions[n].secondary)
  }

  ghost predicate Consistent<I>(contributions: seq<Contribution<I>>) {
    forall i, j :: 0 <= i < |contributions| && 0 <= j < |contributions| && contributions[i].key == contributions[j].key
                   ==> contributions[i].identity == contributions[j].identity
  }

  predicate Fits(scores: Scores) {
    scores.primary <= MAX_INTEGER && scores.secondary <= MAX_INTEGER
  }

  ghost predicate InRange<I>(contributions: seq<Contribution<I>>) {
    forall key :: Fits(ScoresOf(contributions, key))
  }

  ghost predicate IsTable<I>(table: map<nat, Entry<I>>, contributions: seq<Contribution<I>>) {
    && (forall i :: 0 <= i < |contributions| ==>
          contributions[i].key in table && table[contributions[i].key].identity == contributions[i].identity)
    && (forall key :: key in table ==> exists i :: 0 <= i < |contributions| && contributions[i].key == key)
    && (forall key :: ScoresOf(contributions, key) == TableScores(table, key))
  }

  function TableScores<I>(table: map<nat, Entry<I>>, key: nat): Scores {
    if key in table then Scores(table[key].primary, table[key].secondary) else Scores(0, 0)
  }

  lemma ScoresOfMore<I>(contributions: seq<Contribution<I>>, i: nat, key: nat)
    requires i < |contributions|
    ensures var before := ScoresOf(contributions[..i], key);
            ScoresOf(contributions[..i + 1], key) ==
              if contributions[i].key != key then before
              else Scores(before.primary + contributions[i].primary, before.secondary + contributions[i].secondary)
  {
    assert contributions[..i + 1][..i] == contributions[..i];
  }

  lemma {:induction false} ScoresGrow<I>(contributions: seq<Contribution<I>>, i: nat, key: nat)
    requires i <= |contributions|
    ensures Fits(ScoresOf(contributions, key)) ==> Fits(ScoresOf(contributions[..i], key))
    decreases |contributions| - i
  {
    if i == |contributions| {
      assert contributions[..i] == contributions;
    } else {
      ScoresOfMore(contributions, i, key);
      ScoresGrow(contributions, i + 1, key);
    }
  }

  class AggregateRanker<I(==)> {
    var table: map<nat, Entry<I>>

    constructor ()
      ensures table == map[]
    {
      table := map[];
    }

    method Add(c: Contribution<I>) returns (error: Option<RankError>)
      requires Fits(Scores(c.primary, c.secondary))
      modifies this
      ensures error.None? ==>
                && (c.key in old(table) ==> old(table)[c.key].identity == c.identity)
                && var before := TableScores(old(table), c.key);
                   && Fits(Scores(before.primary + c.primary, before.secondary + c.secondary))
                   && table == old(table)[c.key := Entry(c.identity, before.primary + c.primary, before.secondary + c.secondary)]
      ensures error == Some(IdentitiesConflict) <==> c.key in old(table) && old(table)[c.key].identity != c.identity
      ensures error == Some(OutOfRange) <==>
                && c.key in old(table) && old(table)[c.key].identity == c.identity
                && !Fits(Scores(old(table)[c.key].primary + c.primary, old(table)[c.key].secondary + c.secondary))
      ensures error.Some? ==> table == old(table)
    {
      if c.key !in table {
        table := table[c.key := Entry(c.identity, c.primary, c.secondary)];
        return None;
      }
      var row := table[c.key];
      if row.identity == c.identity && row.primary <= MAX_INTEGER - c.primary && row.secondary <= MAX_INTEGER - c.secondary {
        table := table[c.key := Entry(row.identity, row.primary + c.primary, row.secondary + c.secondary)];
        return None;
      }
      if row.identity != c.identity {
        return Some(IdentitiesConflict);
      }
      return Some(OutOfRange);
    }

    /** Adding everything is refused exactly when identities conflict or some candidate's sums are out of range. */
    method AddAll(contributions: seq<Contribution<I>>) returns (error: Option<RankError>)
      requires table == map[]
      requires forall i :: 0 <= i < |contributions| ==> Fits(Scores(contributions[i].primary, contributions[i].secondary))
      modifies this
      ensures error.None? <==> Consistent(contributions) && InRange(contributions)
      ensures error == Some(IdentitiesConflict) ==> !Consistent(contributions)
      ensures error == Some(OutOfRange) ==> !InRange(contributions)
      ensures error.None? ==> IsTable(table, contributions)
    {
      error := None;
      assert contributions[..0] == [];
      for i := 0 to |contributions|
        invariant IsTable(table, contributions[..i]) && InRange(contributions[..i])
        invariant error.None?
      {
        ghost var before := table;
        error := Add(contributions[i]);
        if error.Some? {
          assert error.value.IdentitiesConflict? || error.value.OutOfRange?;
          Refused(contributions, i, table);
          return;
        }
        Added(contributions, i, before, table);
      }
      assert contributions[..|contributions|] == contributions;
      TableConsistent(table, contributions);
    }

    /** The keys of the greatest candidates by primary score, secondary score and key. */
    method SelectedKeys(limit: nat) returns (keys: set<nat>)
      requires limit > 0
      ensures IsTopOf(table, keys, limit)
    {
      var rows: seq<Ranked<nat>> := [];
      var rest := table.Keys;
      while rest != {}
        invariant rest <= table.Keys
        invariant Distinct(rows)
        invariant AreRows(table, rows, table.Keys - rest)
        decreases rest
      {
        var key :| key in rest;
        MoreRows(table, rows, table.Keys - rest, key);
        assert table.Keys - (rest - {key}) == table.Keys - rest + {key};
        rows := rows + [RowOf(table, key)];
        rest := rest - {key};
      }
      assert table.Keys - rest == table.Keys;
      var kept := SelectTop(rows, limit);
      assert Members(rows) == Rows(table, table.Keys);
      TopKeys(table, kept, limit);
      keys := set r | r in kept :: r.item;
    }
  }

  function RowOf<I>(table: map<nat, Entry<I>>, key: nat): Ranked<nat>
    requires key in table
  {
    Ranked([table[key].primary, table[key].secondary, key], key)
  }

  ghost function Rows<I>(table: map<nat, Entry<I>>, keys: set<nat>): set<Ranked<nat>>
    requires keys <= table.Keys
  {
    set key | key in keys :: RowOf(table, key)
  }

  /** The rows of some keys, each once, in any order. */
  ghost predicate AreRows<I>(table: map<nat, Entry<I>>, rows: seq<Ranked<nat>>, keys: set<nat>)
    requires keys <= table.Keys
  {
    && (forall i :: 0 <= i < |rows| ==> rows[i].item in keys && rows[i] == RowOf(table, rows[i].item))
    && (forall key :: key in keys ==> RowOf(table, key) in rows)
  }

  lemma MoreRows<I>(table: map<nat, Entry<I>>, rows: seq<Ranked<nat>>, keys: set<nat>, key: nat)
    requires keys <= table.Keys && AreRows(table, rows, keys) && Distinct(rows) && key in table && key !in keys
    ensures AreRows(table, rows + [RowOf(table, key)], keys + {key}) && Distinct(rows + [RowOf(table, key)])
  {
    forall i | 0 <= i < |rows|
      ensures rows[i].rank != RowOf(table, key).rank
    {
      assert rows[i].rank[2] == rows[i].item;
    }
    forall k | k in keys + {key}
      ensures RowOf(table, k) in rows + [RowOf(table, key)]
    {
    }
  }

  ghost predicate IsTopOf<I>(table: map<nat, Entry<I>>, keys: set<nat>, limit: nat) {
    keys <= table.Keys && IsTop(Rows(table, table.Keys), Rows(table, keys), limit)
  }

  lemma TopKeys<I>(table: map<nat, Entry<I>>, kept: set<Ranked<nat>>, limit: nat)
    requires IsTop(Rows(table, table.Keys), kept, limit)
    ensures IsTopOf(table, set r | r in kept :: r.item, limit)
  {
    var keys := set r | r in kept :: r.item;
    assert keys <= table.Keys;
    assert Rows(table, keys) == kept;
  }

  lemma TableConsistent<I>(table: map<nat, Entry<I>>, contributions: seq<Contribution<I>>)
    requires IsTable(table, contributions)
    ensures Consistent(contributions)
  {
  }

  lemma Added<I>(contributions: seq<Contribution<I>>, i: nat, before: map<nat, Entry<I>>, table: map<nat, Entry<I>>)
    requires i < |contributions| && IsTable(before, contributions[..i]) && InRange(contributions[..i])
    requires var c := contributions[i]; var s := TableScores(before, c.key);
             && (c.key in before ==> before[c.key].identity == c.identity)
             && Fits(Scores(s.primary + c.primary, s.secondary + c.secondary))
             && table == before[c.key := Entry(c.identity, s.primary + c.primary, s.secondary + c.secondary)]
    ensures IsTable(table, contributions[..i + 1]) && InRange(contributions[..i + 1])
  {
    forall key
      ensures ScoresOf(contributions[..i + 1], key) == TableScores(table, key)
      ensures Fits(ScoresOf(contributions[..i + 1], key))
    {
      ScoresOfMore(contributions, i, key);
      assert Fits(ScoresOf(contributions[..i], key));
    }
    var more := contributions[..i + 1];
    forall key | key in table
      ensures exists k :: 0 <= k < |more| && more[k].key == key
    {
      if key in before {
        var k :| 0 <= k < i && contributions[..i][k].key == key;
        assert more[k].key == key;
      } else {
        assert more[i].key == key;
      }
    }
    forall k | 0 <= k < |more|
      ensures more[k].key in table && table[more[k].key].identity == more[k].identity
    {
      if k < i {
        assert more[k] == contributions[..i][k];
      }
    }
  }

  lemma Refused<I>(contributions: seq<Contribution<I>>, i: nat, table: map<nat, Entry<I>>)
    requires i < |contributions| && IsTable(table, contributions[..i])
    requires var c := contributions[i]; var s := TableScores(table, c.key);
             || (c.key in table && table[c.key].identity != c.identity)
             || !Fits(Scores(s.primary + c.primary, s.secondary + c.secondary))
    ensures if contributions[i].key in table && table[contributions[i].key].identity != contributions[i].identity
            then !Consistent(contributions) else !InRange(contributions)
  {
    var c := contributions[i];
    if c.key in table && table[c.key].identity != c.identity {
      var k :| 0 <= k < i && contributions[..i][k].key == c.key;
      assert contributions[k].key == c.key;
    } else {
      ScoresOfMore(contributions, i, c.key);
      ScoresGrow(contributions, i + 1, c.key);
      assert !Fits(ScoresOf(contributions, c.key));
    }
  }
}

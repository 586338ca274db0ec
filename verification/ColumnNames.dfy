/**
 Column names of a query result (src/runtime_tools/query.py): repeated names get the first free numbered suffix, so that no
 column of a row is lost when the row becomes an object.
 */
module ColumnNames {
  import opened Sets

  function Digit(d: nat): char
    requires d < 10
  {
    "0123456789"[d]
  }

  function Decimal(n: nat): string {
    if n < 10 then [Digit(n)] else Decimal(n / 10) + [Digit(n % 10)]
  }

  function DigitValue(c: char): nat {
    if '0' <= c <= '9' then c as nat - '0' as nat else 0
  }

  function ValueOf(s: string): nat {
    if s == [] then 0 else ValueOf(s[..|s| - 1]) * 10 + DigitValue(s[|s| - 1])
  }

  /** Decimal printing can be read back, so different numbers print differently. */
  lemma {:induction false} DecimalRoundTrip(n: nat)
    ensures ValueOf(Decimal(n)) == n
  {
    if n >= 10 {
      DecimalRoundTrip(n / 10);
      assert Decimal(n)[..|Decimal(n)| - 1] == Decimal(n / 10);
    } else {
      assert Decimal(n)[..0] == [];
    }
  }

  function Suffixed(base: string, n: nat): string {
    base + "_" + Decimal(n)
  }

  lemma SuffixesDiffer(base: string, m: nat, n: nat)
    requires Suffixed(base, m) == Suffixed(base, n)
    ensures m == n
  {
    assert Suffixed(base, m)[|base| + 1..] == Decimal(m);
    assert Suffixed(base, n)[|base| + 1..] == Decimal(n);
    DecimalRoundTrip(m);
    DecimalRoundTrip(n);
  }

  ghost function Tried(base: string, n: nat): set<string> {
    set k | 2 <= k < n :: Suffixed(base, k)
  }

  lemma {:induction false} TriedCount(base: string, n: nat)
    requires n >= 2
    ensures |Tried(base, n)| == n - 2
  {
    if n == 2 {
      assert Tried(base, n) == {};
    } else {
      TriedCount(base, n - 1);
      forall k | 2 <= k < n - 1
        ensures Suffixed(base, k) != Suffixed(base, n - 1)
      {
        if Suffixed(base, k) == Suffixed(base, n - 1) {
          SuffixesDiffer(base, k, n - 1);
        }
      }
      assert Tried(base, n) == Tried(base, n - 1) + {Suffixed(base, n - 1)};
    }
  }

  /** The name a column gets: its base if that is free, or else its base with the first free suffix from 2 on. */
  ghost predicate IsFirstFree(column: string, base: string, used: set<string>) {
    && column !in used
    && (base !in used ==> column == base)
    && (base in used ==> exists n :: n >= 2 && column == Suffixed(base, n) && Tried(base, n) <= used)
  }

  method FirstFree(base: string, used: set<string>) returns (column: string)
    ensures IsFirstFree(column, base, used)
  {
    column := base;
    var suffix := 2;
    while column in used
      invariant suffix >= 2
      invariant if suffix == 2 then column == base else base in used && column == Suffixed(base, suffix - 1)
      invariant suffix > 2 ==> Tried(base, suffix - 1) <= used
      decreases |used| + 3 - suffix
    {
      if suffix > 2 {
        assert Tried(base, suffix) == Tried(base, suffix - 1) + {column};
      } else {
        assert Tried(base, suffix) == {};
      }
      TriedCount(base, suffix);
      SubsetSize(Tried(base, suffix), used);
      column := Suffixed(base, suffix);
      suffix := suffix + 1;
    }
    assert suffix > 2 ==> suffix - 1 >= 2 && column == Suffixed(base, suffix - 1);
  }

  /** Every column gets the first free name in view of those before it. */
  method Names(bases: seq<string>) returns (columns: seq<string>)
    ensures |columns| == |bases|
    ensures forall i, j :: 0 <= i < j < |columns| ==> columns[i] != columns[j]
    ensures forall i :: 0 <= i < |columns| ==> IsFirstFree(columns[i], bases[i], Before(columns, i))
  {
    columns := [];
    var used: set<string> := {};
    for i := 0 to |bases|
      invariant |columns| == i && used == Before(columns, i)
      invariant forall k, l :: 0 <= k < l < i ==> columns[k] != columns[l]
      invariant forall k :: 0 <= k < i ==> IsFirstFree(columns[k], bases[k], Before(columns, k))
    {
      var column := FirstFree(bases[i], used);
      BeforeMore(columns, column);
      columns := columns + [column];
      used := used + {column};
    }
  }

  ghost function Before(columns: seq<string>, i: nat): set<string>
    requires i <= |columns|
  {
    set k | 0 <= k < i :: columns[k]
  }

  lemma BeforeMore(columns: seq<string>, column: string)
    ensures forall k :: 0 <= k <= |columns| ==> Before(columns + [column], k) == Before(columns, k)
    ensures Before(columns + [column], |columns| + 1) == Before(columns, |columns|) + {column}
  {
    var more := columns + [column];
    forall k | 0 <= k <= |columns|
      ensures Before(more, k) == Before(columns, k)
    {
      assert forall l :: 0 <= l < k ==> more[l] == columns[l];
    }
    assert Before(more, |columns| + 1) == Before(more, |columns|) + {more[|columns|]};
  }

  /** A row as an object: a later column of the same name would replace an earlier one. */
  function RowObject<V>(columns: seq<string>, row: seq<V>): map<string, V>
    requires |columns| == |row|
  {
    if columns == [] then map[]
    else
      var n := |columns| - 1;
      RowObject(columns[..n], row[..n])[columns[n] := row[n]]
  }

  /** With distinct names, each column of the row is found under its name, and there is nothing else. */
  lemma {:induction false} RowKeepsColumns<V>(columns: seq<string>, row: seq<V>, i: nat)
    requires |columns| == |row| && forall i, j :: 0 <= i < j < |columns| ==> columns[i] != columns[j]
    ensures |RowObject(columns, row)| == |columns|
    ensures i < |columns| ==> columns[i] in RowObject(columns, row) && RowObject(columns, row)[columns[i]] == row[i]
    ensures forall c :: c in RowObject(columns, row) ==> c in columns
  {
    if columns != [] {
      var n := |columns| - 1;
      var rest := RowObject(columns[..n], row[..n]);
      RowKeepsColumns(columns[..n], row[..n], i);
      assert columns[n] !in columns[..n];
      assert RowObject(columns, row).Keys == rest.Keys + {columns[n]};
    }
  }
}

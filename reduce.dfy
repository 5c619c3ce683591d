/** The reductions the highlight and average routes perform, stated once over
    sequences of per-coin profits (`None` for a coin that was skipped) and
    per-entity rows of them. Each is a left fold in enumeration order, which is
    the order the routes reduce in when their lookups are taken one after the
    other. */
module Reduce {
  import opened Common

  // ---------------------------------------------------------------------------
  // Sums, counts and means over the valid (present) profits

  /** Running total of the present profits (`totalProfit += profitPercentage`). */
  function SumValid(s: seq<Option<real>>): real
    decreases |s|
  {
    if s == [] then 0.0
    else SumValid(s[..|s| - 1]) + s[|s| - 1].GetOr(0.0)
  }

  /** Number of present profits (`validCoinCount += 1`). */
  function CountValid(s: seq<Option<real>>): (n: nat)
    decreases |s|
    ensures n <= |s|
    ensures n == 0 <==> forall i :: 0 <= i < |s| ==> s[i].None?
  {
    if s == [] then 0
    else CountValid(s[..|s| - 1]) + (if s[|s| - 1].Some? then 1 else 0)
  }

  /** Mean of the present profits; missing when there is none (the source's
      `NaN`, or its explicit "no valid coin" branch). */
  function Mean(s: seq<Option<real>>): (r: Option<real>)
    ensures r.Some? <==> exists i :: 0 <= i < |s| && s[i].Some?
  {
    if CountValid(s) > 0 then Some(SumValid(s) / CountValid(s) as real) else None
  }

  lemma {:induction false} SumCountAppend(a: seq<Option<real>>, b: seq<Option<real>>)
    ensures SumValid(a + b) == SumValid(a) + SumValid(b)
    ensures CountValid(a + b) == CountValid(a) + CountValid(b)
    decreases |b|
  {
    if b == [] {
      assert a + b == a;
    } else {
      SumCountAppend(a, b[..|b| - 1]);
      assert (a + b)[..|a + b| - 1] == a + b[..|b| - 1];
    }
  }

  /** One more result: the total and the count grow by that result alone. */
  lemma SumCountSnoc(s: seq<Option<real>>, x: Option<real>)
    ensures SumValid(s + [x]) == SumValid(s) + x.GetOr(0.0)
    ensures CountValid(s + [x]) == CountValid(s) + (if x.Some? then 1 else 0)
  {
    assert (s + [x])[..|s|] == s;
  }

  /** A loop over the results that adds each valid one keeps the total and
      the count of the prefix it has seen. */
  lemma SumCountPrefixStep(s: seq<Option<real>>, k: nat)
    requires k < |s|
    ensures SumValid(s[..k + 1]) == SumValid(s[..k]) + s[k].GetOr(0.0)
    ensures CountValid(s[..k + 1]) == CountValid(s[..k]) + (if s[k].Some? then 1 else 0)
  {
    assert s[..k + 1] == s[..k] + [s[k]];
    SumCountSnoc(s[..k], s[k]);
  }

  /** A skipped coin (a failed or unusable lookup) changes neither the total
      nor the count: removing it leaves both, and hence the mean, as they were. */
  lemma SkippedCoinIsIgnored(s: seq<Option<real>>, k: nat)
    requires k < |s| && s[k].None?
    ensures SumValid(s[..k] + s[k + 1..]) == SumValid(s)
    ensures CountValid(s[..k] + s[k + 1..]) == CountValid(s)
    ensures Mean(s[..k] + s[k + 1..]) == Mean(s)
  {
    var a, x, b := s[..k], s[k], s[k + 1..];
    assert s == a + ([x] + b);
    SumCountAppend(a, [x] + b);
    SumCountSnoc([], x);
    assert [] + [x] == [x];
    SumCountAppend([x], b);
    SumCountAppend(a, b);
    assert SumValid(a + b) == SumValid(s) && CountValid(a + b) == CountValid(s);
  }

  lemma {:induction false} NoValidSumsToZero(s: seq<Option<real>>)
    requires CountValid(s) == 0
    ensures SumValid(s) == 0.0
    decreases |s|
  {
    if s != [] {
      NoValidSumsToZero(s[..|s| - 1]);
    }
  }

  /** `n` copies of `b` added up, so that the bounds below stay linear. */
  function Scale(n: nat, b: real): real {
    if n == 0 then 0.0 else Scale(n - 1, b) + b
  }

  lemma {:induction false} ScaleIsProduct(n: nat, b: real)
    ensures Scale(n, b) == n as real * b
  {
    if n > 0 {
      ScaleIsProduct(n - 1, b);
      assert (n - 1) as real * b + b == n as real * b;
    }
  }

  /** Peeling the last result off a sequence: its value leaves the total and
      it leaves the count iff it is present. */
  lemma SumCountLast(s: seq<Option<real>>)
    requires s != []
    ensures var t, last := s[..|s| - 1], s[|s| - 1];
            && SumValid(s) == SumValid(t) + last.GetOr(0.0)
            && CountValid(s) == CountValid(t) + (if last.Some? then 1 else 0)
  {
  }

  /** When every valid profit exceeds `b`, so does their average. */
  lemma {:induction false} SumStrictlyAbove(s: seq<Option<real>>, b: real)
    requires CountValid(s) > 0
    requires forall i :: 0 <= i < |s| && s[i].Some? ==> s[i].value > b
    ensures SumValid(s) > Scale(CountValid(s), b)
    decreases |s|
  {
    var t, last := s[..|s| - 1], s[|s| - 1];
    SumCountLast(s);
    if CountValid(t) == 0 {
      NoValidSumsToZero(t);
    } else {
      forall i | 0 <= i < |t| && t[i].Some? ensures t[i].value > b {
        assert t[i] == s[i];
      }
      SumStrictlyAbove(t, b);
    }
  }

  /** When every valid profit is below `b`, so is their average. */
  lemma {:induction false} SumStrictlyBelow(s: seq<Option<real>>, b: real)
    requires CountValid(s) > 0
    requires forall i :: 0 <= i < |s| && s[i].Some? ==> s[i].value < b
    ensures SumValid(s) < Scale(CountValid(s), b)
    decreases |s|
  {
    var t, last := s[..|s| - 1], s[|s| - 1];
    SumCountLast(s);
    if CountValid(t) == 0 {
      NoValidSumsToZero(t);
    } else {
      forall i | 0 <= i < |t| && t[i].Some? ensures t[i].value < b {
        assert t[i] == s[i];
      }
      SumStrictlyBelow(t, b);
    }
  }

  /** The mean of the valid profits lies between the smallest and the largest
      of them: some valid profit is at most the mean and some is at least it. */
  lemma MeanIsBetweenValidProfits(s: seq<Option<real>>)
    requires Mean(s).Some?
    ensures exists i :: 0 <= i < |s| && s[i].Some? && s[i].value <= Mean(s).value
    ensures exists j :: 0 <= j < |s| && s[j].Some? && s[j].value >= Mean(s).value
  {
    var m := Mean(s).value;
    var n := CountValid(s);
    assert m * n as real == SumValid(s);
    ScaleIsProduct(n, m);
    if forall i :: 0 <= i < |s| && s[i].Some? ==> s[i].value > m {
      SumStrictlyAbove(s, m);
      assert false;
    }
    if forall j :: 0 <= j < |s| && s[j].Some? ==> s[j].value < m {
      SumStrictlyBelow(s, m);
      assert false;
    }
  }

  // ---------------------------------------------------------------------------
  // First maximum: a fold with strict `>` starting from minus infinity

  /** `k` holds a present value that no present value exceeds, and every
      present value before it is strictly smaller: the first maximum. */
  ghost predicate IsFirstMax(s: seq<Option<real>>, k: nat) {
    && k < |s|
    && s[k].Some?
    && (forall i :: 0 <= i < |s| && s[i].Some? ==> s[i].value <= s[k].value)
    && (forall i :: 0 <= i < k && s[i].Some? ==> s[i].value < s[k].value)
  }

  /** Index of the first maximal present value, as the loop
      `if (p > highest) { highest = p; best = item }` from `-Infinity` finds it;
      missing exactly when no value is present. */
  function ArgMax(s: seq<Option<real>>): (r: Option<nat>)
    decreases |s|
    ensures r.None? <==> forall i :: 0 <= i < |s| ==> s[i].None?
    ensures r.Some? ==> IsFirstMax(s, r.value)
  {
    if s == [] then None
    else
      var prev := ArgMax(s[..|s| - 1]);
      var last := s[|s| - 1];
      if last.Some? && (prev.None? || last.value > s[prev.value].value) then Some(|s| - 1)
      else prev
  }

  /** The first maximum is unique, so any loop that finds one finds `ArgMax`. */
  lemma FirstMaxIsUnique(s: seq<Option<real>>, j: nat, k: nat)
    requires IsFirstMax(s, j) && IsFirstMax(s, k)
    ensures j == k
  {
  }

  /** One step of the running maximum: the state a loop keeps is the index of
      the best so far, and the step compares the next value strictly. */
  function MaxStep(s: seq<Option<real>>, best: Option<nat>, i: nat): Option<nat>
    requires i < |s|
    requires best.Some? ==> best.value < |s| && s[best.value].Some?
  {
    if s[i].Some? && (best.None? || s[i].value > s[best.value].value) then Some(i) else best
  }

  lemma ArgMaxPrefixStep(s: seq<Option<real>>, i: nat)
    requires i < |s|
    ensures ArgMax(s[..i]).None? || (ArgMax(s[..i]).value < i && s[ArgMax(s[..i]).value].Some?)
    ensures ArgMax(s[..i + 1]) == MaxStep(s, ArgMax(s[..i]), i)
  {
    assert s[..i + 1][..i] == s[..i];
    var p := ArgMax(s[..i]);
    if p.Some? {
      assert s[..i][p.value] == s[p.value];
    }
  }

  // ---------------------------------------------------------------------------
  // Most coins: a fold with strict `>` starting from -1

  /** The entity with the most coins and its count, as the loop
      `if (coins.length > mostCoinsCount)` from `mostCoinsCount = -1` finds them:
      missing (and the count -1) only for an empty list; otherwise the first
      entity whose count no other exceeds. */
  function MostCoins(counts: seq<nat>): (r: (Option<nat>, int))
    decreases |counts|
    ensures r.0.None? <==> counts == []
    ensures r.0.None? ==> r.1 == -1
    ensures r.0.Some? ==> && r.0.value < |counts|
                          && r.1 == counts[r.0.value]
  {
    if counts == [] then (None, -1)
    else
      var prev := MostCoins(counts[..|counts| - 1]);
      var c := counts[|counts| - 1];
      if c > prev.1 then (Some(|counts| - 1), c) else prev
  }

  /** The selected entity has the largest count, and every entity before it
      has a strictly smaller one. */
  lemma {:induction false} MostCoinsIsFirstMaximum(counts: seq<nat>)
    requires counts != []
    ensures var (most, c) := MostCoins(counts);
            && most.Some?
            && (forall i :: 0 <= i < |counts| ==> counts[i] <= c)
            && (forall i :: 0 <= i < most.value ==> counts[i] < c)
  {
    var n := |counts| - 1;
    var pre := counts[..n];
    if pre != [] {
      MostCoinsIsFirstMaximum(pre);
    }
  }

  lemma MostCoinsPrefixStep(counts: seq<nat>, i: nat)
    requires i < |counts|
    ensures MostCoins(counts[..i + 1]) ==
              (if counts[i] > MostCoins(counts[..i]).1 then (Some(i), counts[i] as int)
               else MostCoins(counts[..i]))
  {
    assert counts[..i + 1][..i] == counts[..i];
  }

  // ---------------------------------------------------------------------------
  // Rows: one row of coins per entity, enumerated entity by entity

  /** The coins of all entities, each tagged with its entity's index, in
      enumeration order (entities in order, then coins in order). */
  function Enumerate<T>(rows: seq<seq<T>>): (e: seq<(nat, T)>)
    decreases |rows|
    ensures |e| == |Flatten(rows)|
    ensures forall k :: 0 <= k < |e| ==> e[k].0 < |rows|
  {
    if rows == [] then []
    else Enumerate(rows[..|rows| - 1]) + Tag(|rows| - 1, rows[|rows| - 1])
  }

  function Tag<T>(owner: nat, row: seq<T>): (t: seq<(nat, T)>)
    ensures |t| == |row|
  {
    seq(|row|, j requires 0 <= j < |row| => (owner, row[j]))
  }

  /** The rows concatenated. */
  function Flatten<T>(rows: seq<seq<T>>): seq<T>
    decreases |rows|
  {
    if rows == [] then [] else Flatten(rows[..|rows| - 1]) + rows[|rows| - 1]
  }

  /** A loop that appends whole rows one at a time keeps `Flatten(rows[..i])`. */
  lemma FlattenPrefix<T>(rows: seq<seq<T>>, i: nat)
    requires i < |rows|
    ensures Flatten(rows[..i + 1]) == Flatten(rows[..i]) + rows[i]
  {
    assert rows[..i + 1][..i] == rows[..i];
  }

  /** Enumerating one more row appends that row, tagged with its index. */
  lemma EnumeratePrefix<T>(rows: seq<seq<T>>, i: nat)
    requires i < |rows|
    ensures Enumerate(rows[..i + 1]) == Enumerate(rows[..i]) + Tag(i, rows[i])
  {
    assert rows[..i + 1][..i] == rows[..i];
  }

  /** The inner loop of the coin collection: pushes every element of `row`,
      tagged with `owner`, onto `acc`. */
  method AppendTagged<T>(acc: seq<(nat, T)>, owner: nat, row: seq<T>) returns (r: seq<(nat, T)>)
    ensures r == acc + Tag(owner, row)
  {
    r := acc;
    var j := 0;
    while j < |row|
      invariant 0 <= j <= |row|
      invariant r == acc + Tag(owner, row[..j])
    {
      TagSnoc(owner, row, j);
      r := r + [(owner, row[j])];
      j := j + 1;
    }
    assert row[..j] == row;
  }

  /** Tagging one more element of a row appends that element. */
  lemma TagSnoc<T>(owner: nat, row: seq<T>, j: nat)
    requires j < |row|
    ensures Tag(owner, row[..j + 1]) == Tag(owner, row[..j]) + [(owner, row[j])]
  {
  }

  /** Every coin of every entity appears in the enumeration, tagged with its
      entity, and every element of the enumeration is such a coin. */
  lemma {:induction false} EnumerateCovers<T>(rows: seq<seq<T>>, i: nat, j: nat)
    requires i < |rows| && j < |rows[i]|
    ensures (i, rows[i][j]) in Enumerate(rows)
    decreases |rows|
  {
    var n := |rows| - 1;
    if i < n {
      EnumerateCovers(rows[..n], i, j);
    } else {
      assert Tag(n, rows[n])[j] == (i, rows[i][j]);
    }
  }

  lemma {:induction false} EnumerateSound<T>(rows: seq<seq<T>>, k: nat)
    requires k < |Enumerate(rows)|
    ensures Enumerate(rows)[k].0 < |rows| && Enumerate(rows)[k].1 in rows[Enumerate(rows)[k].0]
    decreases |rows|
  {
    var n := |rows| - 1;
    var pre := Enumerate(rows[..n]);
    if k < |pre| {
      EnumerateSound(rows[..n], k);
    }
  }

  /** Size of the enumeration: one element per coin. */
  lemma {:induction false} FlattenLength<T>(rows: seq<seq<T>>, i: nat)
    requires i < |rows|
    ensures |Flatten(rows[..i])| + |rows[i]| <= |Flatten(rows)|
    decreases |rows|
  {
    var n := |rows| - 1;
    if i < n {
      assert rows[..n][..i] == rows[..i];
      FlattenLength(rows[..n], i);
    } else {
      assert rows[..i] == rows[..n];
    }
  }

  /** Where a coin sits in the enumeration: the `j`-th coin of entity `i`
      comes right after all coins of the entities before it. */
  lemma {:induction false} EnumerateAt<T>(rows: seq<seq<T>>, i: nat, j: nat)
    requires i < |rows| && j < |rows[i]|
    ensures |Flatten(rows[..i])| + j < |Enumerate(rows)|
    ensures Enumerate(rows)[|Flatten(rows[..i])| + j] == (i, rows[i][j])
    decreases |rows|
  {
    var n := |rows| - 1;
    assert Enumerate(rows) == Enumerate(rows[..n]) + Tag(n, rows[n]);
    if i < n {
      EnumerateAt(rows[..n], i, j);
      assert rows[..n][..i] == rows[..i];
      assert rows[..n][i] == rows[i];
    } else {
      assert rows[..i] == rows[..n];
      assert Tag(n, rows[n])[j] == (n, rows[n][j]);
    }
  }

  /** Every position of the enumeration is the place of some coin. */
  lemma {:induction false} EnumeratePosition<T>(rows: seq<seq<T>>, k: nat) returns (i: nat, j: nat)
    requires k < |Enumerate(rows)|
    ensures i < |rows| && j < |rows[i]| && k == |Flatten(rows[..i])| + j
    decreases |rows|
  {
    assert rows != [];
    var n := |rows| - 1;
    var pre := Enumerate(rows[..n]);
    assert Enumerate(rows) == pre + Tag(n, rows[n]);
    if k < |pre| {
      i, j := EnumeratePosition(rows[..n], k);
      assert rows[..n][..i] == rows[..i];
    } else {
      i, j := n, k - |pre|;
      assert rows[..i] == rows[..n];
    }
  }

  /** Every coin of an earlier entity comes before every coin of a later one. */
  lemma EnumerateOrder<T>(rows: seq<seq<T>>, a: nat, ja: nat, b: nat, jb: nat)
    requires a < b < |rows| && ja < |rows[a]|
    ensures |Flatten(rows[..a])| + ja < |Flatten(rows[..b])| + jb
  {
    FlattenLength(rows[..b], a);
    assert rows[..b][..a] == rows[..a];
  }

  /** The `j`-th element of row `i` in the concatenation. */
  lemma {:induction false} FlattenAt<T>(rows: seq<seq<T>>, i: nat, j: nat)
    requires i < |rows| && j < |rows[i]|
    ensures |Flatten(rows[..i])| + j < |Flatten(rows)|
    ensures Flatten(rows)[|Flatten(rows[..i])| + j] == rows[i][j]
    decreases |rows|
  {
    var n := |rows| - 1;
    if i < n {
      FlattenAt(rows[..n], i, j);
      assert rows[..n][..i] == rows[..i];
      assert rows[..n][i] == rows[i];
    } else {
      assert rows[..i] == rows[..n];
    }
  }

  /** Cell `(i0, j0)` holds a value; no cell holds a larger one and every
      cell before it, row by row, holds a smaller one. */
  ghost predicate IsFirstBestCell(rows: seq<seq<Option<real>>>, i0: nat, j0: nat) {
    && i0 < |rows| && j0 < |rows[i0]| && rows[i0][j0].Some?
    && (forall i, j :: 0 <= i < |rows| && 0 <= j < |rows[i]| && rows[i][j].Some? ==>
          rows[i][j].value <= rows[i0][j0].value)
    && (forall i, j :: 0 <= i < |rows| && 0 <= j < |rows[i]| && (i < i0 || (i == i0 && j < j0)) && rows[i][j].Some? ==>
          rows[i][j].value < rows[i0][j0].value)
  }

  /** The concatenation holds no value exactly when no cell does. */
  lemma NoCellPresent(rows: seq<seq<Option<real>>>)
    ensures (forall k :: 0 <= k < |Flatten(rows)| ==> Flatten(rows)[k].None?)
            <==> (forall i, j :: 0 <= i < |rows| && 0 <= j < |rows[i]| ==> rows[i][j].None?)
  {
    var f := Flatten(rows);
    if forall k :: 0 <= k < |f| ==> f[k].None? {
      forall i, j | 0 <= i < |rows| && 0 <= j < |rows[i]|
        ensures rows[i][j].None?
      {
        FlattenAt(rows, i, j);
      }
    }
    if forall i, j :: 0 <= i < |rows| && 0 <= j < |rows[i]| ==> rows[i][j].None? {
      forall k | 0 <= k < |f|
        ensures f[k].None?
      {
        var i, j := EnumeratePosition(rows, k);
        FlattenAt(rows, i, j);
      }
    }
  }

  /** The first maximum of the concatenation is the first best cell, row by
      row. */
  lemma FirstBestCell(rows: seq<seq<Option<real>>>) returns (i0: nat, j0: nat)
    requires ArgMax(Flatten(rows)).Some?
    ensures IsFirstBestCell(rows, i0, j0)
    ensures ArgMax(Flatten(rows)).value == |Flatten(rows[..i0])| + j0
  {
    var f := Flatten(rows);
    var b := ArgMax(f).value;
    i0, j0 := EnumeratePosition(rows, b);
    FlattenAt(rows, i0, j0);
    forall i, j | 0 <= i < |rows| && 0 <= j < |rows[i]| && rows[i][j].Some?
      ensures rows[i][j].value <= rows[i0][j0].value
    {
      FlattenAt(rows, i, j);
    }
    forall i, j | 0 <= i < |rows| && 0 <= j < |rows[i]| && (i < i0 || (i == i0 && j < j0)) && rows[i][j].Some?
      ensures rows[i][j].value < rows[i0][j0].value
    {
      FlattenAt(rows, i, j);
      if i < i0 {
        EnumerateOrder(rows, i, j, i0, j0);
      }
    }
  }

  /** Mapping each coin to its profit keeps every prefix's total length. */
  lemma {:induction false} FlattenMapPrefixLength<T>(items: seq<seq<T>>, f: T -> Option<real>, i: nat)
    requires i <= |items|
    ensures |Flatten(MapRows(items, f)[..i])| == |Flatten(items[..i])|
    decreases i
  {
    if i > 0 {
      FlattenMapPrefixLength(items, f, i - 1);
      assert MapRows(items, f)[..i][..i - 1] == MapRows(items, f)[..i - 1];
      assert items[..i][..i - 1] == items[..i - 1];
    }
  }

  /** The first maximum of the per-coin profits, located in the coin rows:
      the first best cell, and the coin and owner the enumeration has there. */
  lemma FirstBestItem<T>(items: seq<seq<T>>, f: T -> Option<real>) returns (i0: nat, j0: nat)
    requires ArgMax(Flatten(MapRows(items, f))).Some?
    ensures IsFirstBestCell(MapRows(items, f), i0, j0)
    ensures var b := ArgMax(Flatten(MapRows(items, f))).value;
            b < |Enumerate(items)| && Enumerate(items)[b] == (i0, items[i0][j0])
  {
    i0, j0 := FirstBestCell(MapRows(items, f));
    FlattenMapPrefixLength(items, f, i0);
    EnumerateAt(items, i0, j0);
  }

  /** Computing each coin's profit after enumerating, or enumerating the rows
      of profits, gives the same sequence of profits. */
  lemma ProfitsOfMappedEnumeration<T>(rows: seq<seq<T>>, f: T -> Option<real>)
    ensures Profits(MapItems(Enumerate(rows), f)) == Flatten(MapRows(rows, f))
  {
    EnumerateMap(rows, f);
    ProfitsOfEnumerate(MapRows(rows, f));
  }

  /** Per-coin profits of the enumeration, read off its second components. */
  function Profits(e: seq<(nat, Option<real>)>): (s: seq<Option<real>>)
    ensures |s| == |e|
  {
    seq(|e|, k requires 0 <= k < |e| => e[k].1)
  }

  lemma {:induction false} ProfitsOfEnumerate(rows: seq<seq<Option<real>>>)
    ensures Profits(Enumerate(rows)) == Flatten(rows)
    decreases |rows|
  {
    if rows != [] {
      var n := |rows| - 1;
      ProfitsOfEnumerate(rows[..n]);
      assert Profits(Enumerate(rows)) == Profits(Enumerate(rows[..n])) + rows[n];
    }
  }

  /** Applies a per-coin function to every coin of every row. */
  function MapRows<T>(rows: seq<seq<T>>, f: T -> Option<real>): (m: seq<seq<Option<real>>>)
    ensures |m| == |rows|
    ensures forall i :: 0 <= i < |rows| ==> |m[i]| == |rows[i]|
  {
    seq(|rows|, i requires 0 <= i < |rows| =>
      seq(|rows[i]|, j requires 0 <= j < |rows[i]| => f(rows[i][j])))
  }

  /** Applies a per-coin function to every element of an enumeration. */
  function MapItems<T>(e: seq<(nat, T)>, f: T -> Option<real>): (m: seq<(nat, Option<real>)>)
    ensures |m| == |e|
  {
    seq(|e|, k requires 0 <= k < |e| => (e[k].0, f(e[k].1)))
  }

  /** Computing each coin's profit and then enumerating gives the enumeration
      of the coins with each profit computed in place: the coin list and the
      list of lookup results stay aligned. */
  lemma {:induction false} EnumerateMap<T>(rows: seq<seq<T>>, f: T -> Option<real>)
    ensures Enumerate(MapRows(rows, f)) == MapItems(Enumerate(rows), f)
    decreases |rows|
  {
    if rows != [] {
      var n := |rows| - 1;
      EnumerateMap(rows[..n], f);
      assert MapRows(rows, f)[..n] == MapRows(rows[..n], f);
      assert MapItems(Enumerate(rows), f) == MapItems(Enumerate(rows[..n]), f) + Tag(n, MapRows(rows, f)[n]);
    }
  }

  /** The entities listed by `ValidOwners` are exactly those with a valid
      profit, each once, in increasing order. */
  lemma {:induction false} ValidOwnersExactly(rows: seq<seq<Option<real>>>)
    ensures forall i :: i in ValidOwners(rows) <==> 0 <= i < |rows| && CountValid(rows[i]) > 0
    ensures forall a, b :: 0 <= a < b < |ValidOwners(rows)| ==> ValidOwners(rows)[a] < ValidOwners(rows)[b]
    decreases |rows|
  {
    if rows != [] {
      var n := |rows| - 1;
      ValidOwnersExactly(rows[..n]);
      forall i | 0 <= i < n ensures rows[..n][i] == rows[i] { }
    }
  }

  // ---------------------------------------------------------------------------
  // Per-entity ledger: total and count of valid profits, keyed by entity, with
  // the order in which entities first received a valid profit

  datatype Tally = Tally(total: real, count: nat)

  /** A dictionary from entity to its tally, together with its key order (a
      JavaScript object iterates its string keys in insertion order). */
  datatype Ledger = Ledger(tallies: map<nat, Tally>, order: seq<nat>)

  /** Adds one (entity, profit) result: a skipped coin changes nothing; the
      first valid profit of an entity creates its entry at the end. */
  function Record(l: Ledger, item: (nat, Option<real>)): Ledger {
    var (owner, p) := item;
    if p.None? then l
    else if owner in l.tallies then
      var t := l.tallies[owner];
      l.(tallies := l.tallies[owner := Tally(t.total + p.value, t.count + 1)])
    else
      Ledger(l.tallies[owner := Tally(p.value, 1)], l.order + [owner])
  }

  function RecordAll(l: Ledger, items: seq<(nat, Option<real>)>): Ledger
    decreases |items|
  {
    if items == [] then l else Record(RecordAll(l, items[..|items| - 1]), items[|items| - 1])
  }

  /** Recording a valid profit is what the routes do: create the entry with
      zero total and count on first use, then add the profit and count it. */
  lemma RecordValidProfit(l: Ledger, owner: nat, p: real)
    ensures var created := if owner in l.tallies then l
                           else Ledger(l.tallies[owner := Tally(0.0, 0)], l.order + [owner]);
            var t := created.tallies[owner];
            Record(l, (owner, Some(p))) == created.(tallies := created.tallies[owner := Tally(t.total + p, t.count + 1)])
  {
    if owner !in l.tallies {
      assert l.tallies[owner := Tally(0.0, 0)][owner := Tally(0.0 + p, 0 + 1)] == l.tallies[owner := Tally(p, 1)];
    }
  }

  /** Adds a valid profit to `owner`'s running total and count, which start at
      zero on first use. Under any key order, the result is the recorded
      ledger once a new owner is appended to that order. */
  method Credit(tallies: map<nat, Tally>, owner: nat, profit: real) returns (tallies': map<nat, Tally>)
    ensures forall order :: Ledger(tallies', if owner in tallies then order else order + [owner])
                              == Record(Ledger(tallies, order), (owner, Some(profit)))
  {
    tallies' := tallies;
    if owner !in tallies' {
      tallies' := tallies'[owner := Tally(0.0, 0)];
    }
    tallies' := tallies'[owner := Tally(tallies'[owner].total + profit, tallies'[owner].count + 1)];
    forall order {
      RecordValidProfit(Ledger(tallies, order), owner, profit);
    }
  }

  lemma RecordAllPrefixStep(l: Ledger, items: seq<(nat, Option<real>)>, k: nat)
    requires k < |items|
    ensures RecordAll(l, items[..k + 1]) == Record(RecordAll(l, items[..k]), items[k])
  {
    assert items[..k + 1][..k] == items[..k];
  }

  /** The indices of the entities with at least one valid profit, in order. */
  function ValidOwners(rows: seq<seq<Option<real>>>): (o: seq<nat>)
    decreases |rows|
    ensures forall k :: 0 <= k < |o| ==> o[k] < |rows|
  {
    if rows == [] then []
    else ValidOwners(rows[..|rows| - 1]) + (if CountValid(rows[|rows| - 1]) > 0 then [|rows| - 1] else [])
  }

  /** What the ledger holds once every row has been recorded. */
  function ExpectedLedger(rows: seq<seq<Option<real>>>): Ledger {
    Ledger(
      map i | 0 <= i < |rows| && CountValid(rows[i]) > 0 :: Tally(SumValid(rows[i]), CountValid(rows[i])),
      ValidOwners(rows))
  }

  lemma {:induction false} RecordAllAppend(l: Ledger, a: seq<(nat, Option<real>)>, b: seq<(nat, Option<real>)>)
    ensures RecordAll(l, a + b) == RecordAll(RecordAll(l, a), b)
    decreases |b|
  {
    if b == [] {
      assert a + b == a;
    } else {
      RecordAllAppend(l, a, b[..|b| - 1]);
      assert (a + b)[..|a + b| - 1] == a + b[..|b| - 1];
    }
  }

  /** Recording one entity's row into a ledger that has no entry for it adds
      the entry (total and count of the row's valid profits) exactly when the
      row holds a valid profit. */
  lemma {:induction false} RecordRow(l: Ledger, owner: nat, row: seq<Option<real>>)
    requires owner !in l.tallies
    ensures RecordAll(l, Tag(owner, row)) ==
              if CountValid(row) > 0 then
                Ledger(l.tallies[owner := Tally(SumValid(row), CountValid(row))], l.order + [owner])
              else l
    decreases |row|
  {
    if row != [] {
      var n := |row| - 1;
      var pre := row[..n];
      var tg := Tag(owner, row);
      assert tg[..n] == Tag(owner, pre);
      assert tg[n] == (owner, row[n]);
      RecordRow(l, owner, pre);
      var before := RecordAll(l, tg[..n]);
      assert RecordAll(l, tg) == Record(before, (owner, row[n]));
      assert SumValid(row) == SumValid(pre) + row[n].GetOr(0.0);
      assert CountValid(row) == CountValid(pre) + (if row[n].Some? then 1 else 0);
      if CountValid(pre) > 0 {
        assert before.tallies[owner] == Tally(SumValid(pre), CountValid(pre));
      } else {
        assert before == l;
        NoValidSumsToZero(pre);
      }
    }
  }

  /** Recording every (entity, profit) result in enumeration order leaves, for
      each entity with a valid profit, the total and count of its valid
      profits, and lists those entities in entity order. */
  lemma {:induction false} LedgerOfEnumeration(rows: seq<seq<Option<real>>>)
    ensures RecordAll(Ledger(map[], []), Enumerate(rows)) == ExpectedLedger(rows)
    decreases |rows|
  {
    var empty := Ledger(map[], []);
    if rows == [] {
      assert ExpectedLedger(rows).tallies == map[];
    } else {
      var n := |rows| - 1;
      var pre := rows[..n];
      LedgerOfEnumeration(pre);
      assert Enumerate(rows) == Enumerate(pre) + Tag(n, rows[n]);
      RecordAllAppend(empty, Enumerate(pre), Tag(n, rows[n]));
      var lp := ExpectedLedger(pre);
      assert n !in lp.tallies;
      RecordRow(lp, n, rows[n]);
      ExpectedLedgerStep(rows);
    }
  }

  lemma ExpectedLedgerStep(rows: seq<seq<Option<real>>>)
    requires rows != []
    ensures var n := |rows| - 1;
            var lp := ExpectedLedger(rows[..n]);
            ExpectedLedger(rows) ==
              if CountValid(rows[n]) > 0 then
                Ledger(lp.tallies[n := Tally(SumValid(rows[n]), CountValid(rows[n]))], lp.order + [n])
              else lp
  {
    var n := |rows| - 1;
    var pre := rows[..n];
    var lp := ExpectedLedger(pre);
    var full := ExpectedLedger(rows);
    forall i | 0 <= i < n ensures pre[i] == rows[i] { }
    if CountValid(rows[n]) > 0 {
      assert full.tallies == lp.tallies[n := Tally(SumValid(rows[n]), CountValid(rows[n]))];
    } else {
      assert full.tallies == lp.tallies;
    }
  }

  /** The per-entity means, `None` for an entity with no valid profit. */
  function Means(rows: seq<seq<Option<real>>>): (m: seq<Option<real>>)
    ensures |m| == |rows|
  {
    seq(|rows|, i requires 0 <= i < |rows| => Mean(rows[i]))
  }

  /** The entity with the highest mean, as found by walking only the entities
      that have one (`for (const userId in userProfits)`): a key whose value
      is missing is passed over, and a key replaces the best so far exactly
      when its value is strictly greater. */
  function ArgMaxOver(s: seq<Option<real>>, order: seq<nat>): (r: Option<nat>)
    decreases |order|
    ensures r.Some? ==> r.value < |s| && s[r.value].Some?
  {
    if order == [] then None
    else
      var prev := ArgMaxOver(s, order[..|order| - 1]);
      var i := order[|order| - 1];
      if i < |s| && s[i].Some? && (prev.None? || s[i].value > s[prev.value].value) then Some(i)
      else prev
  }

  /** Walking the entities that have a mean, in entity order, finds the same
      entity as the first maximum over all means. */
  lemma {:induction false} ArgMaxOverValidOwners(rows: seq<seq<Option<real>>>)
    ensures ArgMaxOver(Means(rows), ValidOwners(rows)) == ArgMax(Means(rows))
    decreases |rows|
  {
    if rows != [] {
      var n := |rows| - 1;
      var pre := rows[..n];
      var m, o := Means(rows), ValidOwners(pre);
      ArgMaxOverValidOwners(pre);
      MeansPrefix(rows);
      ArgMaxOverSame(Means(pre), m, o);
      ArgMaxPrefixStep(m, n);
      assert m[..n + 1] == m;
      if CountValid(rows[n]) > 0 {
        assert ValidOwners(rows) == o + [n];
        ArgMaxOverPrefixStep(m, o + [n], |o|);
        assert (o + [n])[..|o|] == o && (o + [n])[..|o| + 1] == o + [n];
      } else {
        assert ValidOwners(rows) == o;
      }
    }
  }

  lemma MeansPrefix(rows: seq<seq<Option<real>>>)
    requires rows != []
    ensures Means(rows)[..|rows| - 1] == Means(rows[..|rows| - 1])
    ensures Means(rows)[|rows| - 1].Some? <==> CountValid(rows[|rows| - 1]) > 0
  {
  }

  /** One step of the walk over `order`: a key with a value replaces the
      best so far exactly when its value is strictly greater. */
  lemma ArgMaxOverPrefixStep(s: seq<Option<real>>, order: seq<nat>, t: nat)
    requires t < |order| && order[t] < |s| && s[order[t]].Some?
    ensures var prev := ArgMaxOver(s, order[..t]);
            ArgMaxOver(s, order[..t + 1]) ==
              if prev.None? || s[order[t]].value > s[prev.value].value then Some(order[t]) else prev
  {
    assert order[..t + 1][..t] == order[..t];
  }

  /** The entry the ledger holds for an entity with a valid profit: its
      `total / count` is that entity's mean. */
  lemma LedgerEntryMean(rows: seq<seq<Option<real>>>, o: nat)
    requires o in ValidOwners(rows)
    ensures o < |rows| && o in ExpectedLedger(rows).tallies
    ensures var t := ExpectedLedger(rows).tallies[o];
            t.count > 0 && Means(rows)[o] == Some(t.total / t.count as real)
  {
    ValidOwnersExactly(rows);
  }

  /** Walking `order` in a longer sequence that agrees on the prefix gives the
      same answer when every key indexes the prefix. */
  lemma {:induction false} ArgMaxOverSame(s: seq<Option<real>>, t: seq<Option<real>>, order: seq<nat>)
    requires |s| <= |t| && t[..|s|] == s
    requires forall k :: 0 <= k < |order| ==> order[k] < |s|
    ensures ArgMaxOver(t, order) == ArgMaxOver(s, order)
    decreases |order|
  {
    if order != [] {
      var i := order[|order| - 1];
      assert t[..|s|][i] == t[i];
      ArgMaxOverSame(s, t, order[..|order| - 1]);
      var prev := ArgMaxOver(s, order[..|order| - 1]);
      if prev.Some? {
        assert t[..|s|][prev.value] == t[prev.value];
      }
    }
  }

}

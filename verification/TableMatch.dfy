/** Comparing a predicted table with a gold table (`compare_pandas_table` in
    `benchmark/scripts/evaluation.py`), on columns of cells. */
module TableMatch {
  import opened Sequences

  datatype Cell = Null | Num(value: real) | Str(text: string)

  /** The order of the sort key, which tells all cells apart. */
  type Order = (Cell, Cell) -> bool

  ghost predicate Total(leq: Order) {
    && (forall a, b :: leq(a, b) || leq(b, a))
    && (forall a, b :: leq(a, b) && leq(b, a) ==> a == b)
    && (forall a, b, c :: leq(a, b) && leq(b, c) ==> leq(a, c))
  }

  function Abs(x: real): real {
    if x < 0.0 then -x else x
  }

  function Max(x: real, y: real): real {
    if x < y then y else x
  }

  /** `math.isclose` with its default relative tolerance. */
  predicate IsClose(x: real, y: real) {
    Abs(x - y) <= Max(0.000000001 * Max(Abs(x), Abs(y)), 0.01)
  }

  predicate CellsMatch(a: Cell, b: Cell) {
    if a.Num? && b.Num? then IsClose(a.value, b.value) else a == b
  }

  predicate Pairwise(v: seq<Cell>, w: seq<Cell>) {
    |v| == |w| && forall i | 0 <= i < |v| :: CellsMatch(v[i], w[i])
  }

  function Insert(x: Cell, s: seq<Cell>, leq: Order): seq<Cell> {
    if s == [] then [x] else if leq(x, s[0]) then [x] + s else [s[0]] + Insert(x, s[1..], leq)
  }

  function Sorted(v: seq<Cell>, leq: Order): seq<Cell> {
    if v == [] then [] else Insert(v[0], Sorted(v[1..], leq), leq)
  }

  predicate VectorsMatch(v: seq<Cell>, w: seq<Cell>, ignoreOrder: bool, leq: Order) {
    if ignoreOrder then Pairwise(Sorted(v, leq), Sorted(w, leq)) else Pairwise(v, w)
  }

  /** A table as the list of its columns. */
  type Table = seq<seq<Cell>>

  predicate HasMatch(g: seq<Cell>, pred: Table, ignoreOrder: bool, leq: Order) {
    exists p <- pred :: VectorsMatch(g, p, ignoreOrder, leq)
  }

  predicate Matches(gold: Table, pred: Table, ignoreOrder: bool, leq: Order) {
    forall g <- gold :: HasMatch(g, pred, ignoreOrder, leq)
  }

  // ---------------------------------------------------------------- the loops

  method CompareVectors(v: seq<Cell>, w: seq<Cell>, ignoreOrder: bool, leq: Order) returns (r: bool)
    ensures r <==> VectorsMatch(v, w, ignoreOrder, leq)
  {
    var v', w' := v, w;
    if ignoreOrder {
      v', w' := Sorted(v, leq), Sorted(w, leq);
    }
    if |v'| != |w'| {
      return false;
    }
    for i := 0 to |v'|
      invariant forall j | 0 <= j < i :: CellsMatch(v'[j], w'[j])
    {
      if v'[i].Null? && w'[i].Null? {
        continue;
      } else if v'[i].Num? && w'[i].Num? {
        if !IsClose(v'[i].value, w'[i].value) {
          return false;
        }
      } else if v'[i] != w'[i] {
        return false;
      }
    }
    r := true;
  }

  /** The score is 1 exactly when every gold column matches some predicted column. */
  method ComparePandasTable(pred: Table, gold: Table, ignoreOrder: bool, leq: Order) returns (score: nat)
    ensures score == if Matches(gold, pred, ignoreOrder, leq) then 1 else 0
  {
    score := 1;
    for i := 0 to |gold|
      invariant score == 1 && forall k | 0 <= k < i :: HasMatch(gold[k], pred, ignoreOrder, leq)
    {
      var found := false;
      for j := 0 to |pred|
        invariant !found && forall k | 0 <= k < j :: !VectorsMatch(gold[i], pred[k], ignoreOrder, leq)
      {
        found := CompareVectors(gold[i], pred[j], ignoreOrder, leq);
        if found {
          assert pred[j] in pred;
          break;
        }
      }
      if !found {
        assert gold[i] in gold;
        score := 0;
        break;
      }
    }
  }

  // ---------------------------------------------------------------- sorting

  predicate InOrder(s: seq<Cell>, leq: Order) {
    forall i, j | 0 <= i < j < |s| :: leq(s[i], s[j])
  }

  lemma LowestFirst(x: Cell, s: seq<Cell>, leq: Order)
    requires InOrder(s, leq) && forall y <- s :: leq(x, y)
    ensures InOrder([x] + s, leq)
  {
  }

  lemma {:induction false} InsertKeeps(x: Cell, s: seq<Cell>, leq: Order)
    requires Total(leq) && InOrder(s, leq)
    ensures InOrder(Insert(x, s, leq), leq)
    ensures multiset(Insert(x, s, leq)) == multiset(s) + multiset{x}
  {
    if s != [] {
      assert s == [s[0]] + s[1..];
      if leq(x, s[0]) {
        forall y | y in s ensures leq(x, y) {
          assert y == s[0] || leq(s[0], y);
        }
        LowestFirst(x, s, leq);
      } else {
        InsertKeeps(x, s[1..], leq);
        var rest := Insert(x, s[1..], leq);
        forall y | y in rest ensures leq(s[0], y) {
          assert y in multiset(rest);
          assert y == x || y in s[1..];
        }
        LowestFirst(s[0], rest, leq);
      }
    }
  }

  lemma {:induction false} SortedIsSorted(v: seq<Cell>, leq: Order)
    requires Total(leq)
    ensures InOrder(Sorted(v, leq), leq) && multiset(Sorted(v, leq)) == multiset(v)
  {
    if v != [] {
      assert v == [v[0]] + v[1..];
      SortedIsSorted(v[1..], leq);
      InsertKeeps(v[0], Sorted(v[1..], leq), leq);
    }
  }

  predicate SameCells(v: seq<Cell>, w: seq<Cell>) {
    multiset(v) == multiset(w)
  }

  lemma SameLowest(s: seq<Cell>, t: seq<Cell>, leq: Order)
    requires Total(leq) && InOrder(s, leq) && InOrder(t, leq) && SameCells(s, t) && s != [] && t != []
    ensures s[0] == t[0]
  {
    SameMembers(s, t, s[0]);
    SameMembers(s, t, t[0]);
    assert leq(s[0], t[0]) && leq(t[0], s[0]);
  }

  lemma SameTails(s: seq<Cell>, t: seq<Cell>)
    requires SameCells(s, t) && s != [] && t != [] && s[0] == t[0]
    ensures SameCells(s[1..], t[1..])
  {
    assert s == [s[0]] + s[1..] && t == [t[0]] + t[1..];
    assert multiset(s[1..]) == multiset(s) - multiset{s[0]};
  }

  lemma SameLength(s: seq<Cell>, t: seq<Cell>)
    requires SameCells(s, t)
    ensures |s| == |t|
  {
    assert |s| == |multiset(s)| && |t| == |multiset(t)|;
  }

  /** There is one way to sort. */
  lemma {:induction false} SortingIsUnique(s: seq<Cell>, t: seq<Cell>, leq: Order)
    requires Total(leq) && InOrder(s, leq) && InOrder(t, leq) && SameCells(s, t)
    ensures s == t
    decreases |s|
  {
    SameLength(s, t);
    if s != [] {
      SameLowest(s, t, leq);
      SameTails(s, t);
      SortingIsUnique(s[1..], t[1..], leq);
      assert s == [s[0]] + s[1..] && t == [t[0]] + t[1..];
    }
  }

  lemma SortedAlike(v: seq<Cell>, w: seq<Cell>, leq: Order)
    requires Total(leq) && SameCells(v, w)
    ensures Sorted(v, leq) == Sorted(w, leq)
  {
    SortedIsSorted(v, leq);
    SortedIsSorted(w, leq);
    SortingIsUnique(Sorted(v, leq), Sorted(w, leq), leq);
  }

  /** With the order ignored only the cells count, not their places. */
  lemma MatchIgnoresPlaces(v: seq<Cell>, v': seq<Cell>, w: seq<Cell>, w': seq<Cell>, leq: Order)
    requires Total(leq) && SameCells(v, v') && SameCells(w, w')
    ensures VectorsMatch(v, w, true, leq) <==> VectorsMatch(v', w', true, leq)
  {
    SortedAlike(v, v', leq);
    SortedAlike(w, w', leq);
  }

  // ---------------------------------------------------------------- what a match is

  /** Two cells match if both are missing, or are the same text, or are numbers at most 0.01
      apart, or at most a billionth of one of them. */
  lemma CellsMatchIff(a: Cell, b: Cell)
    ensures CellsMatch(a, b) <==>
              match (a, b) {
                case (Null, Null) => true
                case (Str(s), Str(t)) => s == t
                case (Num(x), Num(y)) =>
                  var apart := if x < y then y - x else x - y;
                  || apart <= 0.01
                  || 1000000000.0 * apart <= (if x < 0.0 then -x else x)
                  || 1000000000.0 * apart <= (if y < 0.0 then -y else y)
                case _ => false
              }
  {
  }

  /** With the order ignored, two columns match exactly if they match place by place once both
      are in order, however that was brought about. */
  lemma VectorsMatchIff(v: seq<Cell>, w: seq<Cell>, s: seq<Cell>, t: seq<Cell>, leq: Order)
    requires Total(leq) && InOrder(s, leq) && InOrder(t, leq) && SameCells(s, v) && SameCells(t, w)
    ensures VectorsMatch(v, w, true, leq) <==> |s| == |t| && forall i | 0 <= i < |s| :: CellsMatch(s[i], t[i])
    ensures VectorsMatch(v, w, false, leq) <==> |v| == |w| && forall i | 0 <= i < |v| :: CellsMatch(v[i], w[i])
  {
    SortedIsSorted(v, leq);
    SortedIsSorted(w, leq);
    SortingIsUnique(s, Sorted(v, leq), leq);
    SortingIsUnique(t, Sorted(w, leq), leq);
  }

  /** A predicted table matches exactly if every gold column matches one of its columns. */
  lemma MatchesIff(gold: Table, pred: Table, ignoreOrder: bool, leq: Order)
    ensures Matches(gold, pred, ignoreOrder, leq) <==> forall i | 0 <= i < |gold| :: HasMatch(gold[i], pred, ignoreOrder, leq)
    ensures forall g :: HasMatch(g, pred, ignoreOrder, leq) <==>
                        exists j | 0 <= j < |pred| :: VectorsMatch(g, pred[j], ignoreOrder, leq)
  {
    if forall i | 0 <= i < |gold| :: HasMatch(gold[i], pred, ignoreOrder, leq) {
      forall g | g in gold ensures HasMatch(g, pred, ignoreOrder, leq) {
        var i :| 0 <= i < |gold| && gold[i] == g;
      }
    }
    forall g ensures HasMatch(g, pred, ignoreOrder, leq) <==>
                     exists j | 0 <= j < |pred| :: VectorsMatch(g, pred[j], ignoreOrder, leq) {
      HasMatchIff(g, pred, ignoreOrder, leq);
    }
  }

  lemma HasMatchIff(g: seq<Cell>, pred: Table, ignoreOrder: bool, leq: Order)
    ensures HasMatch(g, pred, ignoreOrder, leq) <==> exists j | 0 <= j < |pred| :: VectorsMatch(g, pred[j], ignoreOrder, leq)
  {
    if p :| p in pred && VectorsMatch(g, p, ignoreOrder, leq) {
      var j :| 0 <= j < |pred| && pred[j] == p;
    }
  }

  // ---------------------------------------------------------------- rearranged tables

  function Iota(n: nat): seq<nat> {
    seq(n, i => i)
  }

  ghost predicate IsPermutation(p: seq<nat>, n: nat) {
    multiset(p) == multiset(Iota(n))
  }

  predicate Within(p: seq<nat>, n: nat) {
    forall i | 0 <= i < |p| :: p[i] < n
  }

  function Pick<T>(v: seq<T>, p: seq<nat>): seq<T>
    requires Within(p, |v|)
  {
    seq(|p|, i requires 0 <= i < |p| => v[p[i]])
  }

  lemma PermutationMembers(p: seq<nat>, n: nat)
    requires IsPermutation(p, n)
    ensures |p| == n && Within(p, n) && forall i | 0 <= i < n :: i in p
  {
    assert |p| == |multiset(p)| == |multiset(Iota(n))| == n;
    forall i | 0 <= i < |p| ensures p[i] < n {
      SameMembers(p, Iota(n), p[i]);
    }
    forall i: nat | i < n ensures i in p {
      assert Iota(n)[i] == i;
      SameMembers(p, Iota(n), i);
    }
  }

  lemma PickWithout<T>(v: seq<T>, p: seq<nat>, x: nat)
    requires Within(p, |v|) && x in p
    ensures Within(RemoveFirst(p, x), |v|)
    ensures multiset(Pick(v, p)) == multiset(Pick(v, RemoveFirst(p, x))) + multiset{v[x]}
  {
    var i := IndexOf(p, x);
    var a, b := p[..i], p[i + 1..];
    assert Pick(v, p) == Pick(v, a) + [v[x]] + Pick(v, b);
    assert Pick(v, RemoveFirst(p, x)) == Pick(v, a) + Pick(v, b);
  }

  lemma {:induction false} PickSame<T>(v: seq<T>, p: seq<nat>, q: seq<nat>)
    requires Within(p, |v|) && Within(q, |v|) && multiset(p) == multiset(q)
    ensures multiset(Pick(v, p)) == multiset(Pick(v, q))
    decreases |p|
  {
    assert |p| == |multiset(p)| == |multiset(q)| == |q|;
    if p == [] {
      assert Pick(v, p) == Pick(v, q);
    } else {
      var x := p[0];
      assert x in multiset(q);
      PickWithout(v, p, x);
      PickWithout(v, q, x);
      RemoveFirstMultiset(p, x);
      RemoveFirstMultiset(q, x);
      RemoveFirstLength(p, x);
      PickSame(v, RemoveFirst(p, x), RemoveFirst(q, x));
    }
  }

  lemma RemoveFirstLength<T>(s: seq<T>, x: T)
    requires x in s
    ensures |RemoveFirst(s, x)| == |s| - 1
  {
  }

  lemma PermutedCells<T>(v: seq<T>, p: seq<nat>)
    requires IsPermutation(p, |v|)
    ensures Within(p, |v|) && multiset(Pick(v, p)) == multiset(v)
  {
    PermutationMembers(p, |v|);
    PickSame(v, p, Iota(|v|));
    assert Pick(v, Iota(|v|)) == v;
  }

  /** The table `u` has the rows and the columns of `t` in other orders. */
  ghost predicate Rearranged(t: Table, u: Table, rows: seq<nat>, columns: seq<nat>) {
    && IsPermutation(columns, |t|) && Within(columns, |t|)
    && (forall i | 0 <= i < |t| :: IsPermutation(rows, |t[i]|) && Within(rows, |t[i]|))
    && |u| == |t| == |columns| && forall j | 0 <= j < |u| :: u[j] == Pick(t[columns[j]], rows)
  }

  lemma RearrangedColumn(t: Table, u: Table, rows: seq<nat>, columns: seq<nat>, j: nat)
    requires Rearranged(t, u, rows, columns) && j < |u|
    ensures SameCells(t[columns[j]], u[j])
  {
    PermutedCells(t[columns[j]], rows);
  }

  lemma MatchInRearranged(g: seq<Cell>, g': seq<Cell>, t: Table, u: Table, rows: seq<nat>, columns: seq<nat>, leq: Order)
    requires Total(leq) && SameCells(g, g') && Rearranged(t, u, rows, columns)
    ensures HasMatch(g, t, true, leq) <==> HasMatch(g', u, true, leq)
  {
    if p :| p in t && VectorsMatch(g, p, true, leq) {
      var i :| 0 <= i < |t| && t[i] == p;
      PermutationMembers(columns, |t|);
      var j := IndexOf(columns, i);
      RearrangedColumn(t, u, rows, columns, j);
      MatchIgnoresPlaces(g, g', p, u[j], leq);
      assert u[j] in u;
    }
    if q :| q in u && VectorsMatch(g', q, true, leq) {
      var j :| 0 <= j < |u| && u[j] == q;
      RearrangedColumn(t, u, rows, columns, j);
      MatchIgnoresPlaces(g, g', t[columns[j]], q, leq);
      assert t[columns[j]] in t;
    }
  }

  lemma MatchCarriesOver(gold: Table, gold': Table, pred: Table, rows: seq<nat>, columns: seq<nat>,
                         pred': Table, predRows: seq<nat>, predColumns: seq<nat>, leq: Order)
    requires Total(leq) && Rearranged(gold, gold', rows, columns) && Rearranged(pred, pred', predRows, predColumns)
    ensures forall j | 0 <= j < |gold'| :: HasMatch(gold[columns[j]], pred, true, leq) <==> HasMatch(gold'[j], pred', true, leq)
  {
    forall j | 0 <= j < |gold'|
      ensures HasMatch(gold[columns[j]], pred, true, leq) <==> HasMatch(gold'[j], pred', true, leq)
    {
      RearrangedColumn(gold, gold', rows, columns, j);
      MatchInRearranged(gold[columns[j]], gold'[j], pred, pred', predRows, predColumns, leq);
    }
  }

  /** With the order ignored, permuting the rows or the columns of either table does not change
      the score. */
  lemma ArrangementDoesNotMatter(gold: Table, gold': Table, pred: Table, rows: seq<nat>, columns: seq<nat>,
                                 pred': Table, predRows: seq<nat>, predColumns: seq<nat>, leq: Order)
    requires Total(leq) && Rearranged(gold, gold', rows, columns) && Rearranged(pred, pred', predRows, predColumns)
    ensures Matches(gold, pred, true, leq) <==> Matches(gold', pred', true, leq)
  {
    MatchCarriesOver(gold, gold', pred, rows, columns, pred', predRows, predColumns, leq);
    PermutationMembers(columns, |gold|);
    if Matches(gold', pred', true, leq) {
      forall i | 0 <= i < |gold| ensures HasMatch(gold[i], pred, true, leq) {
        var j := IndexOf(columns, i);
        assert gold'[j] in gold';
      }
    }
    if Matches(gold, pred, true, leq) {
      forall j | 0 <= j < |gold'| ensures HasMatch(gold'[j], pred', true, leq) {
        assert gold[columns[j]] in gold;
      }
    }
  }

  /** More predicted columns never turn a match into a mismatch. */
  lemma MoreColumnsStillMatch(gold: Table, pred: Table, more: Table, ignoreOrder: bool, leq: Order)
    requires Matches(gold, pred, ignoreOrder, leq) && forall p <- pred :: p in more
    ensures Matches(gold, more, ignoreOrder, leq)
  {
    forall g | g in gold ensures HasMatch(g, more, ignoreOrder, leq) {
      assert HasMatch(g, pred, ignoreOrder, leq);
      var p :| p in pred && VectorsMatch(g, p, ignoreOrder, leq);
      assert p in more;
    }
  }

  lemma TableMatchesItself(t: Table, ignoreOrder: bool, leq: Order)
    ensures Matches(t, t, ignoreOrder, leq)
  {
    forall g | g in t ensures VectorsMatch(g, g, ignoreOrder, leq) {
    }
  }

  // ---------------------------------------------------------------- what ignoring the order means

  function WithoutAt<T>(s: seq<T>, i: nat): seq<T>
    requires i < |s|
  {
    s[..i] + s[i + 1..]
  }

  lemma WithoutAtMultiset<T>(s: seq<T>, i: nat)
    requires i < |s|
    ensures multiset(s) == multiset(WithoutAt(s, i)) + multiset{s[i]}
  {
    assert s == s[..i] + [s[i]] + s[i + 1..];
  }

  lemma PairwiseWithout(s: seq<Cell>, t: seq<Cell>, i: nat)
    requires Pairwise(s, t) && i < |s|
    ensures Pairwise(WithoutAt(s, i), WithoutAt(t, i))
  {
    var a, b := WithoutAt(s, i), WithoutAt(t, i);
    forall k | 0 <= k < |a| ensures CellsMatch(a[k], b[k]) {
      var k' := if k < i then k else k + 1;
      assert a[k] == s[k'] && b[k] == t[k'];
    }
  }

  lemma PairwiseWith(v: seq<Cell>, w: seq<Cell>, x: Cell, y: Cell)
    requires Pairwise(v, w) && CellsMatch(x, y)
    ensures Pairwise([x] + v, [y] + w)
  {
  }

  lemma SameWithout(a: seq<Cell>, b: seq<Cell>, x: Cell, v: seq<Cell>, w: seq<Cell>)
    requires SameCells(v, w) && multiset(v) == multiset(a) + multiset{x} && multiset(w) == multiset(b) + multiset{x}
    ensures SameCells(a, b)
  {
    assert multiset(a) == multiset(v) - multiset{x};
  }

  lemma PutBack(rest: seq<Cell>, t: seq<Cell>, i: nat)
    requires i < |t| && SameCells(rest, WithoutAt(t, i))
    ensures SameCells([t[i]] + rest, t)
  {
    WithoutAtMultiset(t, i);
  }

  /** A pairwise match can be carried along any reordering of one side. */
  lemma {:induction false} PairsFollow(s: seq<Cell>, t: seq<Cell>, v: seq<Cell>) returns (w: seq<Cell>)
    requires Pairwise(s, t) && SameCells(v, s)
    ensures SameCells(w, t) && Pairwise(v, w)
    decreases |v|
  {
    SameLength(v, s);
    if v == [] {
      w := [];
    } else {
      SameMembers(v, s, v[0]);
      var i := IndexOf(s, v[0]);
      PairwiseWithout(s, t, i);
      WithoutAtMultiset(s, i);
      WithoutAtMultiset(v, 0);
      assert WithoutAt(v, 0) == v[1..];
      SameWithout(v[1..], WithoutAt(s, i), v[0], v, s);
      var rest := PairsFollow(WithoutAt(s, i), WithoutAt(t, i), v[1..]);
      w := [t[i]] + rest;
      PutBack(rest, t, i);
      PairwiseWith(v[1..], rest, v[0], t[i]);
    }
  }

  /** A match with the order ignored is a match with some reordering of the other column. */
  lemma IgnoringOrderReorders(v: seq<Cell>, w: seq<Cell>, leq: Order) returns (w': seq<Cell>)
    requires Total(leq) && VectorsMatch(v, w, true, leq)
    ensures multiset(w') == multiset(w) && VectorsMatch(v, w', false, leq)
  {
    SortedIsSorted(v, leq);
    SortedIsSorted(w, leq);
    w' := PairsFollow(Sorted(v, leq), Sorted(w, leq), v);
  }

  predicate NoNumbers(v: seq<Cell>) {
    forall c <- v :: !c.Num?
  }

  lemma SortedNoNumbers(v: seq<Cell>, leq: Order)
    requires Total(leq) && NoNumbers(v)
    ensures NoNumbers(Sorted(v, leq))
  {
    SortedIsSorted(v, leq);
    forall c | c in Sorted(v, leq) ensures c in v {
      SameMembers(Sorted(v, leq), v, c);
    }
  }

  /** Where one side has no numbers, ignoring the order compares the columns as bags. */
  lemma WithoutNumbersIff(v: seq<Cell>, w: seq<Cell>, leq: Order)
    requires Total(leq) && (NoNumbers(v) || NoNumbers(w))
    ensures VectorsMatch(v, w, true, leq) <==> multiset(v) == multiset(w)
  {
    SortedIsSorted(v, leq);
    SortedIsSorted(w, leq);
    if NoNumbers(v) {
      SortedNoNumbers(v, leq);
    } else {
      SortedNoNumbers(w, leq);
    }
    PairwiseWithoutNumbers(Sorted(v, leq), Sorted(w, leq));
    if multiset(v) == multiset(w) {
      SortingIsUnique(Sorted(v, leq), Sorted(w, leq), leq);
    }
  }

  lemma PairwiseWithoutNumbers(s: seq<Cell>, t: seq<Cell>)
    requires NoNumbers(s) || NoNumbers(t)
    ensures Pairwise(s, t) <==> s == t
  {
  }

  // ---------------------------------------------------------------- when sorting keeps matches

  /** Two matching pairs that are sorted in opposite ways match crosswise too. */
  ghost predicate Uncrossed(leq: Order) {
    forall a, a', b, b' | leq(a, b) && leq(b', a') && CellsMatch(a, a') && CellsMatch(b, b') ::
      CellsMatch(a, b') && CellsMatch(b, a')
  }

  lemma {:induction false} Lowest(v: seq<Cell>, leq: Order) returns (i: nat)
    requires Total(leq) && v != []
    ensures i < |v| && forall k | 0 <= k < |v| :: leq(v[i], v[k])
  {
    if |v| == 1 {
      i := 0;
    } else {
      var j := Lowest(v[1..], leq);
      i := if leq(v[0], v[j + 1]) then 0 else j + 1;
      forall k | 0 <= k < |v| ensures leq(v[i], v[k]) {
        if k > 0 {
          assert v[k] == v[1..][k - 1];
        }
      }
    }
  }

  /** Sorting puts a lowest cell in front. */
  lemma SortedFrom(v: seq<Cell>, i: nat, leq: Order)
    requires Total(leq) && i < |v| && forall k | 0 <= k < |v| :: leq(v[i], v[k])
    ensures Sorted(v, leq) == [v[i]] + Sorted(WithoutAt(v, i), leq)
  {
    var rest := WithoutAt(v, i);
    SortedIsSorted(v, leq);
    SortedIsSorted(rest, leq);
    forall y | y in Sorted(rest, leq) ensures leq(v[i], y) {
      SameMembers(Sorted(rest, leq), rest, y);
      assert y in v[..i] || y in v[i + 1..];
    }
    LowestFirst(v[i], Sorted(rest, leq), leq);
    WithoutAtMultiset(v, i);
    SortingIsUnique(Sorted(v, leq), [v[i]] + Sorted(rest, leq), leq);
  }

  /** Exchange the partners of the lowest cells of either side. */
  lemma Exchanged(v: seq<Cell>, w: seq<Cell>, i: nat, j: nat)
    requires Pairwise(v, w) && i < |v| && j < |v| && CellsMatch(v[i], w[j]) && CellsMatch(v[j], w[i])
    ensures Pairwise(v, w[i := w[j]][j := w[i]]) && SameCells(w, w[i := w[j]][j := w[i]])
  {
  }

  /** Then a match place by place is also a match in sorted order. */
  lemma {:induction false} SortingKeepsMatches(v: seq<Cell>, w: seq<Cell>, leq: Order)
    requires Total(leq) && Uncrossed(leq) && Pairwise(v, w)
    ensures Pairwise(Sorted(v, leq), Sorted(w, leq))
    decreases |v|
  {
    if v != [] {
      var i := Lowest(v, leq);
      var j := Lowest(w, leq);
      var w' := w[i := w[j]][j := w[i]];
      assert leq(v[i], v[j]) && leq(w[j], w[i]);
      Exchanged(v, w, i, j);
      SortedAlike(w, w', leq);
      LowestStays(w, w', w[j], leq);
      SortedFrom(v, i, leq);
      SortedFrom(w', i, leq);
      PairwiseWithout(v, w', i);
      SortingKeepsMatches(WithoutAt(v, i), WithoutAt(w', i), leq);
      PairwiseWith(Sorted(WithoutAt(v, i), leq), Sorted(WithoutAt(w', i), leq), v[i], w'[i]);
    }
  }

  lemma LowestStays(w: seq<Cell>, w': seq<Cell>, x: Cell, leq: Order)
    requires SameCells(w, w') && forall k | 0 <= k < |w| :: leq(x, w[k])
    ensures forall k | 0 <= k < |w'| :: leq(x, w'[k])
  {
    forall k | 0 <= k < |w'| ensures leq(x, w'[k]) {
      SameMembers(w, w', w'[k]);
    }
  }

  lemma SortedPair(x: Cell, y: Cell, leq: Order)
    requires Total(leq) && leq(x, y)
    ensures Sorted([x, y], leq) == [x, y] && Sorted([y, x], leq) == [x, y]
  {
    SortedIsSorted([x, y], leq);
    SortedIsSorted([y, x], leq);
    assert multiset([x, y]) == multiset([y, x]);
    SortingIsUnique(Sorted([x, y], leq), [x, y], leq);
    SortingIsUnique(Sorted([y, x], leq), [x, y], leq);
  }

  lemma CrossedPairsPart(leq: Order, a: Cell, a': Cell, b: Cell, b': Cell)
    requires Total(leq) && leq(a, b) && leq(b', a') && CellsMatch(a, a') && CellsMatch(b, b')
    requires !(CellsMatch(a, b') && CellsMatch(b, a'))
    ensures VectorsMatch([a, b], [a', b'], false, leq) && !VectorsMatch([a, b], [a', b'], true, leq)
  {
    SortedPair(a, b, leq);
    SortedPair(b', a', leq);
    assert [a, b][0] == a && [a, b][1] == b && [b', a'][0] == b' && [b', a'][1] == a';
  }

  lemma CrossedFails(leq: Order)
    requires Total(leq) && !Uncrossed(leq)
    ensures exists v, w :: VectorsMatch(v, w, false, leq) && !VectorsMatch(v, w, true, leq)
  {
    var a, a', b, b' :| leq(a, b) && leq(b', a') && CellsMatch(a, a') && CellsMatch(b, b')
                        && !(CellsMatch(a, b') && CellsMatch(b, a'));
    CrossedPairsPart(leq, a, a', b, b');
  }

  /** Every match place by place is a match with the order ignored exactly when the sort key
      never sorts two matching pairs in opposite ways without their matching crosswise. */
  lemma SortingKeepsMatchesIff(leq: Order)
    requires Total(leq)
    ensures (forall v, w | VectorsMatch(v, w, false, leq) :: VectorsMatch(v, w, true, leq)) <==> Uncrossed(leq)
  {
    if Uncrossed(leq) {
      forall v, w | VectorsMatch(v, w, false, leq) ensures VectorsMatch(v, w, true, leq) {
        SortingKeepsMatches(v, w, leq);
      }
    } else {
      CrossedFails(leq);
    }
  }

  /** Sorting by text can part numbers that match: 9.999 sorts behind 100 and 10 before it, so
      two columns that match place by place no longer do with the order ignored. */
  lemma SortingPartsNumbers(leq: Order)
    requires Total(leq) && leq(Num(100.0), Num(9.999)) && leq(Num(10.0), Num(100.0))
    ensures var v, w := [Num(100.0), Num(9.999)], [Num(100.0), Num(10.0)];
            VectorsMatch(v, w, false, leq) && !VectorsMatch(v, w, true, leq)
  {
    assert !CellsMatch(Num(100.0), Num(10.0));
    CrossedPairsPart(leq, Num(100.0), Num(100.0), Num(9.999), Num(10.0));
  }
}

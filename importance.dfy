/**
 * The "what drove this decision" panel: feature names are paired positionally
 * with the model's importance weights, sorted by weight ascending, and the
 * last seven rows are kept.
 */
module Importance {
  import opened Wrappers

  /** A row of the importance table: a feature name and its weight. */
  type Ranked = (string, real)

  /** Building the table fails when the two columns differ in length. */
  datatype FrameError = LengthMismatch

  /** How many rows the chart shows. */
  const TopCount: nat := 7

  function Min(a: nat, b: nat): nat {
    if a <= b then a else b
  }

  /** The table's rows: row `i` pairs `names[i]` with `weights[i]`. */
  function Zip(names: seq<string>, weights: seq<real>): (rows: seq<Ranked>)
    requires |names| == |weights|
    ensures |rows| == |names|
  {
    seq(|names|, i requires 0 <= i < |names| => (names[i], weights[i]))
  }

  /** Building the two-column table from the name list and the weight list. */
  function ImportanceTable(names: seq<string>, weights: seq<real>): (r: Result<seq<Ranked>, FrameError>)
    ensures r.Ok? <==> |names| == |weights|
  {
    if |names| == |weights| then Ok(Zip(names, weights)) else Err(LengthMismatch)
  }

  predicate SortedByWeight(s: seq<Ranked>) {
    forall i, j :: 0 <= i < j < |s| ==> s[i].1 <= s[j].1
  }

  function Insert(x: Ranked, s: seq<Ranked>): (r: seq<Ranked>)
    requires SortedByWeight(s)
    ensures SortedByWeight(r)
    ensures multiset(r) == multiset(s) + multiset{x}
  {
    if s == [] then [x]
    else if x.1 <= s[0].1 then [x] + s
    else
      var rest := Insert(x, s[1..]);
      assert s == [s[0]] + s[1..];
      assert forall q :: q in multiset(rest) ==> s[0].1 <= q.1 by {
        forall q | q in multiset(rest) ensures s[0].1 <= q.1 {
          if q != x {
            assert q in multiset(s[1..]);
          }
        }
      }
      [s[0]] + rest
  }

  /**
   * Ascending sort by weight. The order among equal weights is this
   * function's own choice; the table's sort promises none.
   */
  function SortByWeight(s: seq<Ranked>): (r: seq<Ranked>)
    ensures SortedByWeight(r)
    ensures multiset(r) == multiset(s)
  {
    if s == [] then []
    else
      assert s == [s[0]] + s[1..];
      Insert(s[0], SortByWeight(s[1..]))
  }

  /** The last `n` rows (all of them when there are fewer). */
  function Tail(s: seq<Ranked>, n: nat): (r: seq<Ranked>)
    ensures |r| == Min(n, |s|)
    ensures r == s[|s| - |r|..]
  {
    s[|s| - Min(n, |s|)..]
  }

  /**
   * The rows the chart shows: at most seven, ascending by weight, each a row
   * of the table, and no row left out weighs more than a row shown.
   */
  function TopImportances(names: seq<string>, weights: seq<real>): (r: Result<seq<Ranked>, FrameError>)
    ensures r.Ok? <==> |names| == |weights|
    ensures r.Ok? ==> |r.value| == Min(TopCount, |names|)
    ensures r.Ok? ==> SortedByWeight(r.value)
    ensures r.Ok? ==> multiset(r.value) <= multiset(Zip(names, weights))
    ensures r.Ok? ==> forall p, q :: p in multiset(Zip(names, weights)) - multiset(r.value) && q in r.value ==> p.1 <= q.1
  {
    match ImportanceTable(names, weights)
    case Err(e) => Err(e)
    case Ok(rows) =>
      var sorted := SortByWeight(rows);
      var top := Tail(sorted, TopCount);
      TailIsHeaviest(sorted, TopCount);
      Ok(top)
  }

  /** In a sorted sequence, the rows before the tail weigh no more than the tail's rows. */
  lemma {:induction false} TailIsHeaviest(s: seq<Ranked>, n: nat)
    requires SortedByWeight(s)
    ensures SortedByWeight(Tail(s, n))
    ensures multiset(Tail(s, n)) <= multiset(s)
    ensures forall p, q :: p in multiset(s) - multiset(Tail(s, n)) && q in Tail(s, n) ==> p.1 <= q.1
  {
    var m := |s| - |Tail(s, n)|;
    assert Tail(s, n) == s[m..];
    SplitAt(s, m);
    PrefixBelowSuffix(s, m);
  }

  lemma SplitAt(s: seq<Ranked>, m: nat)
    requires m <= |s|
    ensures multiset(s[m..]) <= multiset(s)
    ensures multiset(s) - multiset(s[m..]) == multiset(s[..m])
  {
    assert s == s[..m] + s[m..];
    assert multiset(s) == multiset(s[..m]) + multiset(s[m..]);
  }

  lemma PrefixBelowSuffix(s: seq<Ranked>, m: nat)
    requires m <= |s| && SortedByWeight(s)
    ensures SortedByWeight(s[m..])
    ensures forall p, q :: p in multiset(s[..m]) && q in s[m..] ==> p.1 <= q.1
  {
    var head, tail := s[..m], s[m..];
    forall p: Ranked, q: Ranked | p in multiset(head) && q in tail ensures p.1 <= q.1 {
      var i :| 0 <= i < |head| && head[i] == p;
      var j :| 0 <= j < |tail| && tail[j] == q;
      assert s[i] == p && s[m + j] == q;
    }
    forall i, j | 0 <= i < j < |tail| ensures tail[i].1 <= tail[j].1 {
      assert tail[i] == s[m + i] && tail[j] == s[m + j];
    }
  }

  /** Every row shown pairs a feature name with the weight at the same position. */
  lemma {:induction false} SelectionKeepsPairing(names: seq<string>, weights: seq<real>, p: Ranked)
    requires TopImportances(names, weights).Ok?
    requires p in TopImportances(names, weights).value
    ensures exists i :: 0 <= i < |names| && p == (names[i], weights[i])
  {
    var rows := Zip(names, weights);
    assert p in multiset(TopImportances(names, weights).value);
    assert p in multiset(rows);
    var i :| 0 <= i < |rows| && rows[i] == p;
  }
}

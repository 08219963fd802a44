/**
 * The feature aligner of the price advisor: a raw attribute record is one-hot
 * encoded (pandas `get_dummies` on a one-row frame) and then reindexed onto the
 * ordered feature list the trained model was fit on, missing columns filled
 * with 0.
 */
module FeatureAligner {
  import opened Wrappers

  /** An attribute value: numeric columns are kept, string columns are one-hot encoded. */
  datatype Value = Num(x: real) | Cat(level: string)

  /**
   * The input dictionary, as (attribute name, value) pairs in insertion order.
   * A dictionary cannot repeat a key but this sequence can; a repeated name
   * produces two columns with one label, which alignment reports as
   * `DuplicateLabels`.
   */
  type Record = seq<(string, Value)>

  /** One column of the encoded one-row frame: its label and its single cell. */
  datatype Column = Column(name: string, val: real)

  /**
   * How alignment fails: the record has no attribute at all, so encoding has
   * no column to produce; or the encoded frame has two columns with one label,
   * which reindexing refuses.
   */
  datatype AlignError = NoColumns | DuplicateLabels

  /** Separator `get_dummies` puts between the attribute name and the category. */
  const PrefixSep: string := "_"

  /** Value `reindex` writes into every expected column the frame lacks. */
  const FillValue: real := 0.0

  /** Cell value of an indicator column (`True`, as a number). */
  const Indicator: real := 1.0

  function DummyName(attr: string, level: string): string {
    attr + PrefixSep + level
  }

  // ---------------------------------------------------------------------------
  // Reference view: what each record entry contributes, in record order.
  // ---------------------------------------------------------------------------

  /** The column a single record entry turns into after one-hot encoding. */
  function ColumnOf(entry: (string, Value)): Column {
    match entry.1
    case Num(x) => Column(entry.0, x)
    case Cat(level) => Column(DummyName(entry.0, level), Indicator)
  }

  function Contributions(r: Record): (cs: seq<Column>)
    ensures |cs| == |r|
  {
    seq(|r|, k requires 0 <= k < |r| => ColumnOf(r[k]))
  }

  predicate DistinctNames(cols: seq<Column>) {
    forall i, j :: 0 <= i < j < |cols| ==> cols[i].name != cols[j].name
  }

  /** No two entries of the record produce a column with the same label. */
  predicate NoCollisions(r: Record) {
    DistinctNames(Contributions(r))
  }

  /** Some entry of the record produces a column labelled `name`. */
  ghost predicate Produces(r: Record, name: string) {
    exists k :: 0 <= k < |r| && ColumnOf(r[k]).name == name
  }

  // ---------------------------------------------------------------------------
  // get_dummies on a one-row frame
  // ---------------------------------------------------------------------------

  /** The numeric columns, kept as they are and in their original order. */
  function Numerics(r: Record): seq<Column> {
    if r == [] then []
    else
      match r[0].1
      case Num(x) => [Column(r[0].0, x)] + Numerics(r[1..])
      case Cat(_) => Numerics(r[1..])
  }

  /** One indicator column per string attribute, in column order. */
  function Dummies(r: Record): seq<Column> {
    if r == [] then []
    else
      match r[0].1
      case Num(_) => Dummies(r[1..])
      case Cat(level) => [Column(DummyName(r[0].0, level), Indicator)] + Dummies(r[1..])
  }

  /** The encoded frame: untouched columns first, then the indicator columns. */
  function GetDummies(r: Record): seq<Column> {
    Numerics(r) + Dummies(r)
  }

  function Labels(cols: seq<Column>): (ls: seq<string>)
    ensures |ls| == |cols|
  {
    seq(|cols|, i requires 0 <= i < |cols| => cols[i].name)
  }

  function Values(cols: seq<Column>): (vs: seq<real>)
    ensures |vs| == |cols|
  {
    seq(|cols|, i requires 0 <= i < |cols| => cols[i].val)
  }

  // ---------------------------------------------------------------------------
  // reindex(columns = features, fill_value = 0)
  // ---------------------------------------------------------------------------

  /** The cell of the first column labelled `name`, or the fill value. */
  function Lookup(cols: seq<Column>, name: string): real {
    if cols == [] then FillValue
    else if cols[0].name == name then cols[0].val
    else Lookup(cols[1..], name)
  }

  function Aligned(cols: seq<Column>, features: seq<string>): (v: seq<real>)
    ensures |v| == |features|
  {
    seq(|features|, i requires 0 <= i < |features| => Lookup(cols, features[i]))
  }

  /**
   * Reindexing keeps the frame as it is when its labels already are the
   * feature list, refuses a frame with a repeated label, and otherwise looks
   * each feature up by name.
   */
  function Reindex(cols: seq<Column>, features: seq<string>): (r: Result<seq<real>, AlignError>)
    ensures r.Ok? ==> |r.value| == |features|
    ensures r.Err? ==> !DistinctNames(cols)
    ensures DistinctNames(cols) ==> r == Ok(Aligned(cols, features))
  {
    if Labels(cols) == features then
      if DistinctNames(cols) then PositionalIsLookup(cols, features); Ok(Values(cols))
      else Ok(Values(cols))
    else if !DistinctNames(cols) then Err(DuplicateLabels)
    else Ok(Aligned(cols, features))
  }

  /**
   * The feature aligner: encode, then align with the model's feature list.
   * An empty record gives a frame without columns, and `get_dummies` fails on
   * it: it has no frame to concatenate.
   */
  function PreprocessInput(record: Record, features: seq<string>): (r: Result<seq<real>, AlignError>)
    ensures r.Ok? ==> |r.value| == |features|
    ensures record == [] <==> r == Err(NoColumns)
    ensures r == Err(DuplicateLabels) ==> !NoCollisions(record)
    ensures record != [] && NoCollisions(record) ==> r == Ok(Aligned(GetDummies(record), features))
  {
    if record == [] then Err(NoColumns)
    else
      UniqueLabelsIff(record);
      Reindex(GetDummies(record), features)
  }

  // ---------------------------------------------------------------------------
  // Lemmas: encoding
  // ---------------------------------------------------------------------------

  lemma ContributionsCons(r: Record)
    requires r != []
    ensures Contributions(r) == [ColumnOf(r[0])] + Contributions(r[1..])
  {
  }

  lemma ContributionsAppend(a: Record, b: Record)
    ensures Contributions(a + b) == Contributions(a) + Contributions(b)
  {
  }

  /** The encoded frame holds exactly the record's contributions, reordered. */
  lemma {:induction false} GetDummiesPermutes(r: Record)
    ensures multiset(GetDummies(r)) == multiset(Contributions(r))
  {
    if r != [] {
      GetDummiesPermutes(r[1..]);
      ContributionsCons(r);
    }
  }

  lemma GetDummiesMember(r: Record, c: Column)
    ensures c in GetDummies(r) <==> exists k :: 0 <= k < |r| && ColumnOf(r[k]) == c
  {
    GetDummiesPermutes(r);
    assert c in GetDummies(r) <==> c in multiset(GetDummies(r));
    assert c in Contributions(r) <==> c in multiset(Contributions(r));
    if c in Contributions(r) {
      var k :| 0 <= k < |r| && Contributions(r)[k] == c;
      assert ColumnOf(r[k]) == c;
    }
    if exists k :: 0 <= k < |r| && ColumnOf(r[k]) == c {
      var k :| 0 <= k < |r| && ColumnOf(r[k]) == c;
      assert Contributions(r)[k] == c;
    }
  }

  /** Label distinctness read off the multiset of columns alone. */
  ghost predicate UniqueByName(m: multiset<Column>) {
    && (forall c :: m[c] <= 1)
    && (forall c1, c2 :: c1 in m && c2 in m && c1 != c2 ==> c1.name != c2.name)
  }

  lemma DistinctNamesCons(x: Column, t: seq<Column>)
    ensures DistinctNames([x] + t) <==> DistinctNames(t) && forall c :: c in t ==> c.name != x.name
  {
    var cols := [x] + t;
    if DistinctNames(cols) {
      forall i, j | 0 <= i < j < |t| ensures t[i].name != t[j].name {
        assert t[i] == cols[i + 1] && t[j] == cols[j + 1];
      }
      forall c | c in t ensures c.name != x.name {
        var j :| 0 <= j < |t| && t[j] == c;
        assert cols[0] == x && cols[j + 1] == c;
      }
    }
    if DistinctNames(t) && forall c :: c in t ==> c.name != x.name {
      forall i, j | 0 <= i < j < |cols| ensures cols[i].name != cols[j].name {
        assert cols[j] == t[j - 1];
        if i > 0 {
          assert cols[i] == t[i - 1];
        }
      }
    }
  }

  lemma UniqueByNameCons(x: Column, m: multiset<Column>)
    ensures UniqueByName(multiset{x} + m) <==> UniqueByName(m) && forall c :: c in m ==> c.name != x.name
  {
    var n := multiset{x} + m;
    if UniqueByName(n) {
      assert n[x] == 1 + m[x];
      forall c | c in m ensures c.name != x.name {
        assert c in n && x in n;
      }
      forall c ensures m[c] <= 1 {
        assert n[c] >= m[c];
      }
      forall c1, c2 | c1 in m && c2 in m && c1 != c2 ensures c1.name != c2.name {
        assert c1 in n && c2 in n;
      }
    }
    if UniqueByName(m) && forall c :: c in m ==> c.name != x.name {
      forall c ensures n[c] <= 1 {
        if c == x {
          assert c !in m;
        }
      }
    }
  }

  lemma {:induction false} DistinctNamesIff(cols: seq<Column>)
    ensures DistinctNames(cols) <==> UniqueByName(multiset(cols))
  {
    if cols == [] {
      assert multiset(cols) == multiset{};
    } else {
      var x, t := cols[0], cols[1..];
      assert cols == [x] + t;
      DistinctNamesIff(t);
      DistinctNamesCons(x, t);
      UniqueByNameCons(x, multiset(t));
      assert multiset(cols) == multiset{x} + multiset(t);
      assert forall c :: c in t <==> c in multiset(t);
    }
  }

  /** pandas' test for a unique column index agrees with the reference view. */
  lemma UniqueLabelsIff(r: Record)
    ensures DistinctNames(GetDummies(r)) <==> NoCollisions(r)
  {
    GetDummiesPermutes(r);
    DistinctNamesIff(GetDummies(r));
    DistinctNamesIff(Contributions(r));
  }

  // ---------------------------------------------------------------------------
  // Lemmas: lookup
  // ---------------------------------------------------------------------------

  lemma {:induction false} LookupHit(cols: seq<Column>, c: Column)
    requires DistinctNames(cols)
    requires c in cols
    ensures Lookup(cols, c.name) == c.val
  {
    if cols[0] != c {
      assert DistinctNames(cols[1..]) by {
        forall i, j | 0 <= i < j < |cols[1..]| ensures cols[1..][i].name != cols[1..][j].name {
          assert cols[1..][i] == cols[i + 1] && cols[1..][j] == cols[j + 1];
        }
      }
      var j :| 1 <= j < |cols| && cols[j] == c;
      assert cols[0].name != c.name;
      LookupHit(cols[1..], c);
    }
  }

  lemma {:induction false} LookupMiss(cols: seq<Column>, name: string)
    requires forall c :: c in cols ==> c.name != name
    ensures Lookup(cols, name) == FillValue
  {
    if cols != [] {
      assert cols[0] in cols;
      LookupMiss(cols[1..], name);
    }
  }

  /** When the labels already are the feature list, copying the frame is the same as looking up. */
  lemma PositionalIsLookup(cols: seq<Column>, features: seq<string>)
    requires DistinctNames(cols)
    requires Labels(cols) == features
    ensures Values(cols) == Aligned(cols, features)
  {
    forall i | 0 <= i < |cols| ensures Values(cols)[i] == Aligned(cols, features)[i] {
      assert features[i] == cols[i].name;
      LookupHit(cols, cols[i]);
    }
  }

  // ---------------------------------------------------------------------------
  // Lemmas: what the aligned vector holds
  // ---------------------------------------------------------------------------

  /**
   * Entry `i` of the aligned vector belongs to `features[i]`: it is the value
   * of the record column labelled `features[i]`, or 0 when no entry of the
   * record produces that label.
   */
  lemma PreprocessColumn(record: Record, features: seq<string>, i: nat)
    requires record != [] && NoCollisions(record)
    requires i < |features|
    ensures PreprocessInput(record, features).Ok?
    ensures forall k :: 0 <= k < |record| && ColumnOf(record[k]).name == features[i] ==>
              PreprocessInput(record, features).value[i] == ColumnOf(record[k]).val
    ensures !Produces(record, features[i]) ==> PreprocessInput(record, features).value[i] == FillValue
  {
    var cols := GetDummies(record);
    UniqueLabelsIff(record);
    forall k | 0 <= k < |record| && ColumnOf(record[k]).name == features[i]
      ensures Lookup(cols, features[i]) == ColumnOf(record[k]).val
    {
      GetDummiesMember(record, ColumnOf(record[k]));
      LookupHit(cols, ColumnOf(record[k]));
    }
    if !Produces(record, features[i]) {
      forall c | c in cols ensures c.name != features[i] {
        GetDummiesMember(record, c);
      }
      LookupMiss(cols, features[i]);
    }
  }

  /** A numeric attribute named like a feature lands in that column unchanged. */
  lemma NumericLands(record: Record, features: seq<string>, k: nat, i: nat)
    requires NoCollisions(record)
    requires k < |record| && i < |features|
    requires record[k].1.Num? && record[k].0 == features[i]
    ensures PreprocessInput(record, features).Ok?
    ensures PreprocessInput(record, features).value[i] == record[k].1.x
  {
    PreprocessColumn(record, features, i);
  }

  /** A categorical attribute `a` with level `v` sets the column `a_v` to 1. */
  lemma CategoryLands(record: Record, features: seq<string>, k: nat, i: nat)
    requires NoCollisions(record)
    requires k < |record| && i < |features|
    requires record[k].1.Cat? && features[i] == DummyName(record[k].0, record[k].1.level)
    ensures PreprocessInput(record, features).Ok?
    ensures PreprocessInput(record, features).value[i] == Indicator
  {
    PreprocessColumn(record, features, i);
  }

  /**
   * Whenever alignment succeeds, a feature that no entry of the record
   * produces is 0; an unseen category is not an error.
   */
  lemma FillZero(record: Record, features: seq<string>, i: nat)
    requires PreprocessInput(record, features).Ok?
    requires i < |features|
    requires !Produces(record, features[i])
    ensures PreprocessInput(record, features).value[i] == FillValue
  {
    var cols := GetDummies(record);
    if Labels(cols) == features {
      GetDummiesMember(record, cols[i]);
      assert false;
    }
    forall c | c in cols ensures c.name != features[i] {
      GetDummiesMember(record, c);
    }
    LookupMiss(cols, features[i]);
  }

  /**
   * An attribute whose column is not a feature is dropped: it changes nothing.
   * (Added to an empty record it does change the outcome, from `NoColumns` to
   * success, hence the first requires.)
   */
  lemma DropsExtras(record: Record, extra: (string, Value), features: seq<string>)
    requires record != []
    requires NoCollisions(record + [extra])
    requires ColumnOf(extra).name !in features
    ensures PreprocessInput(record + [extra], features) == PreprocessInput(record, features)
  {
    var more := record + [extra];
    ContributionsAppend(record, [extra]);
    assert NoCollisions(record) by {
      var cs, all := Contributions(record), Contributions(more);
      forall i, j | 0 <= i < j < |cs| ensures cs[i].name != cs[j].name {
        assert cs[i] == all[i] && cs[j] == all[j];
      }
    }
    var r1, r2 := PreprocessInput(more, features), PreprocessInput(record, features);
    forall i | 0 <= i < |features| ensures r1.value[i] == r2.value[i] {
      PreprocessColumn(more, features, i);
      PreprocessColumn(record, features, i);
      if Produces(record, features[i]) {
        var k :| 0 <= k < |record| && ColumnOf(record[k]).name == features[i];
        assert more[k] == record[k];
      } else {
        assert !Produces(more, features[i]) by {
          forall k | 0 <= k < |more| ensures ColumnOf(more[k]).name != features[i] {
            if k < |record| {
              assert more[k] == record[k];
            } else {
              assert more[k] == extra;
            }
          }
        }
      }
    }
    assert r1.value == r2.value;
  }

  /** Removing entry `k` removes its column from the contributions. */
  lemma ContributionsRemove(r: Record, k: nat)
    requires k < |r|
    ensures multiset(Contributions(r)) == multiset(Contributions(r[..k] + r[k + 1..])) + multiset{ColumnOf(r[k])}
  {
    var before, after := r[..k], r[k + 1..];
    assert r == before + [r[k]] + after;
    ContributionsAppend(before, [r[k]]);
    ContributionsAppend(before + [r[k]], after);
    ContributionsAppend(before, after);
  }

  lemma RemoveFromPermutation<T>(a: seq<T>, b: seq<T>, k: nat)
    requires multiset(a) == multiset(b) && a != []
    requires k < |b| && b[k] == a[0]
    ensures multiset(a[1..]) == multiset(b[..k] + b[k + 1..])
  {
    assert a == [a[0]] + a[1..];
    assert b == b[..k] + [b[k]] + b[k + 1..];
    assert multiset(b) == multiset(b[..k] + b[k + 1..]) + multiset{b[k]};
    assert multiset(a) == multiset(a[1..]) + multiset{a[0]};
    assert multiset(a[1..]) == multiset(a) - multiset{a[0]};
  }

  lemma {:induction false} ContributionsPermute(r1: Record, r2: Record)
    requires multiset(r1) == multiset(r2)
    ensures multiset(Contributions(r1)) == multiset(Contributions(r2))
    decreases |r1|
  {
    if r1 == [] {
      assert |r2| == |multiset(r2)| == 0;
    } else {
      assert r1[0] in multiset(r2);
      var k :| 0 <= k < |r2| && r2[k] == r1[0];
      RemoveFromPermutation(r1, r2, k);
      ContributionsPermute(r1[1..], r2[..k] + r2[k + 1..]);
      ContributionsRemove(r2, k);
      ContributionsCons(r1);
    }
  }

  lemma ProducesPermute(r1: Record, r2: Record, name: string)
    requires multiset(r1) == multiset(r2)
    ensures Produces(r1, name) <==> Produces(r2, name)
  {
    if Produces(r1, name) {
      var k :| 0 <= k < |r1| && ColumnOf(r1[k]).name == name;
      assert r1[k] in multiset(r2);
      var k2 :| 0 <= k2 < |r2| && r2[k2] == r1[k];
    }
    if Produces(r2, name) {
      var k :| 0 <= k < |r2| && ColumnOf(r2[k]).name == name;
      assert r2[k] in multiset(r1);
      var k1 :| 0 <= k1 < |r1| && r1[k1] == r2[k];
    }
  }

  /** The order of the attributes in the record does not matter. */
  lemma KeyOrderIrrelevant(r1: Record, r2: Record, features: seq<string>)
    requires NoCollisions(r1)
    requires multiset(r1) == multiset(r2)
    ensures NoCollisions(r2)
    ensures PreprocessInput(r1, features) == PreprocessInput(r2, features)
  {
    ContributionsPermute(r1, r2);
    if r1 == [] || r2 == [] {
      assert |r1| == |multiset(r1)| == |multiset(r2)| == |r2|;
      return;
    }
    DistinctNamesIff(Contributions(r1));
    DistinctNamesIff(Contributions(r2));
    var v1, v2 := PreprocessInput(r1, features), PreprocessInput(r2, features);
    forall i | 0 <= i < |features| ensures v1.value[i] == v2.value[i] {
      PreprocessColumn(r1, features, i);
      PreprocessColumn(r2, features, i);
      ProducesPermute(r1, r2, features[i]);
      if Produces(r1, features[i]) {
        var k :| 0 <= k < |r1| && ColumnOf(r1[k]).name == features[i];
        assert r1[k] in multiset(r2);
        var k2 :| 0 <= k2 < |r2| && r2[k2] == r1[k];
      }
    }
    assert v1.value == v2.value;
  }
}

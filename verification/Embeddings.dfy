/** Restoring the order of embedding vectors from the indices in a response. */
module Embeddings {
  import opened Entities

  /** A decoded JSON value; infinities and NaN are the floats that are not finite. */
  datatype Json =
    | Null
    | Bool(b: bool)
    | Int(n: int)
    | Float(finite: bool, value: real)
    | String(s: string)
    | List(items: seq<Json>)
    | Object(fields: map<string, Json>)

  datatype Error = NoDataList | CountMismatch | NotAnObject | BadIndex | BadVector | BadDimension | Incomplete

  /** A protocol error, or the overflow that an integer too large for a float raises. */
  datatype Failure = Protocol(error: Error) | Overflow

  datatype Result = Vectors(vectors: seq<seq<real>>) | Raised(failure: Failure)

  function Pow2(k: nat): nat {
    if k == 0 then 1 else 2 * Pow2(k - 1)
  }

  /** Integers from here on do not round to a finite double. */
  function FloatLimit(): int { Pow2(1024) - Pow2(970) }

  predicate TooLarge(v: Json) {
    v.Int? && !(-FloatLimit() < v.n < FloatLimit())
  }

  predicate IsNumber(v: Json) {
    (v.Int? && !TooLarge(v)) || (v.Float? && v.finite)
  }

  /** The first value that is not a finite number decides. */
  function VectorFailure(values: seq<Json>): (f: Option<Failure>)
    ensures f.Some? ==> f.value == Overflow || f.value == Protocol(BadVector)
  {
    if values == [] then None
    else if TooLarge(values[0]) then Some(Overflow)
    else if !IsNumber(values[0]) then Some(Protocol(BadVector))
    else VectorFailure(values[1..])
  }

  function ToFloat(v: Json): real {
    match v
    case Int(n) => n as real
    case Float(_, x) => x
    case _ => 0.0
  }

  function Floats(values: seq<Json>): seq<real> {
    seq(|values|, i requires 0 <= i < |values| => ToFloat(values[i]))
  }

  function Field(item: Json, name: string): Option<Json> {
    if item.Object? && name in item.fields then Some(item.fields[name]) else None
  }

  function IndexOf(item: Json): Option<int> {
    match Field(item, "index") case Some(Int(n)) => Some(n) case _ => None
  }

  function ValuesOf(item: Json): Option<seq<Json>> {
    match Field(item, "embedding") case Some(List(values)) => Some(values) case _ => None
  }

  predicate HasIndex(item: Json, index: int) { IndexOf(item) == Some(index) }

  /** What is wrong with item `k`, given the items before it. */
  function ItemFailure(data: seq<Json>, k: nat, dimension: Option<nat>): Option<Failure>
    requires k < |data|
  {
    var item := data[k];
    var index := IndexOf(item);
    if !item.Object? then Some(Protocol(NotAnObject))
    else if index.None? || index.value < 0 || index.value >= |data|
            || (exists j | 0 <= j < k :: HasIndex(data[j], index.value)) then Some(Protocol(BadIndex))
    else
      match ValuesOf(item)
      case None => Some(Protocol(BadVector))
      case Some(values) =>
        if VectorFailure(values).Some? then VectorFailure(values)
        else if dimension.Some? && |values| != dimension.value then Some(Protocol(BadDimension))
        else None
  }

  function DataOf(payload: Json): Option<seq<Json>> {
    match Field(payload, "data") case Some(List(data)) => Some(data) case _ => None
  }

  // ----- pigeonhole

  ghost predicate Distinct(data: seq<Json>) {
    forall j, k | 0 <= j < k < |data| :: IndexOf(data[j]) != IndexOf(data[k])
  }

  ghost predicate InRange(data: seq<Json>, n: nat) {
    forall k | 0 <= k < |data| :: IndexOf(data[k]).Some? && 0 <= IndexOf(data[k]).value < n
  }

  function Numbers(n: nat): (r: set<int>)
    ensures |r| == n && forall i :: i in r <==> 0 <= i < n
  {
    if n == 0 then {} else Numbers(n - 1) + {n - 1}
  }

  function Indices(data: seq<Json>): set<int> {
    set k | 0 <= k < |data| && IndexOf(data[k]).Some? :: IndexOf(data[k]).value
  }

  lemma {:induction false} IndicesCount(data: seq<Json>, n: nat)
    requires Distinct(data) && InRange(data, n)
    ensures |Indices(data)| == |data|
  {
    if data != [] {
      var last := |data| - 1;
      IndicesCount(data[..last], n);
      assert Indices(data) == Indices(data[..last]) + {IndexOf(data[last]).value};
    }
  }

  /** `n` distinct indices below `n` are all of them. */
  lemma EveryIndexOccurs(data: seq<Json>, i: int)
    requires Distinct(data) && InRange(data, |data|) && 0 <= i < |data|
    ensures exists k :: 0 <= k < |data| && HasIndex(data[k], i)
  {
    IndicesCount(data, |data|);
    assert Indices(data) <= Numbers(|data|);
    SubsetOfSameSize(Indices(data), Numbers(|data|));
    assert i in Numbers(|data|);
    var k :| 0 <= k < |data| && IndexOf(data[k]).Some? && IndexOf(data[k]).value == i;
    assert HasIndex(data[k], i);
  }

  lemma SubsetOfSameSize(a: set<int>, b: set<int>)
    requires a <= b && |a| == |b|
    ensures a == b
  {
    assert b == a + (b - a);
  }

  // ----- the parser

  lemma FloatsHold(values: seq<Json>)
    requires forall i | 0 <= i < |values| :: IsNumber(values[i])
    ensures HoldsNumbers(Floats(values), values)
  {}

  /** The values that count as numbers. */
  lemma NumbersAre(n: int, x: real)
    ensures IsNumber(Float(true, x)) && !IsNumber(Float(false, x)) && !IsNumber(Bool(true)) && !IsNumber(Json.Null)
    ensures IsNumber(Int(n)) <==> -FloatLimit() < n < FloatLimit()
  {}

  /** The fields of a response and of its items. */
  lemma FieldsAre(data: seq<Json>, n: int, values: seq<Json>)
    ensures DataOf(Object(map["data" := List(data)])) == Some(data)
    ensures
      var item := Object(map["index" := Int(n), "embedding" := List(values)]);
      IndexOf(item) == Some(n) && ValuesOf(item) == Some(values)
  {}

  /** The vector has the numbers of the item, in their order. */
  ghost predicate HoldsNumbers(vector: seq<real>, values: seq<Json>) {
    && |vector| == |values|
    && forall i | 0 <= i < |values| ::
         || (values[i].Int? && vector[i] == values[i].n as real)
         || (values[i].Float? && values[i].finite && vector[i] == values[i].value)
  }

  /** The items' indices are exactly 0 to n-1, once each, and every vector is valid. */
  ghost predicate Acceptable(data: seq<Json>, dimension: Option<nat>) {
    && Distinct(data) && InRange(data, |data|)
    && forall k | 0 <= k < |data| :: ValidVector(data[k], dimension)
  }

  predicate ValidVector(item: Json, dimension: Option<nat>) {
    && ValuesOf(item).Some?
    && (forall i | 0 <= i < |ValuesOf(item).value| :: IsNumber(ValuesOf(item).value[i]))
    && (dimension.Some? ==> |ValuesOf(item).value| == dimension.value)
  }

  lemma {:induction false} NoVectorFailure(values: seq<Json>)
    ensures VectorFailure(values).None? <==> forall i | 0 <= i < |values| :: IsNumber(values[i])
  {
    if values != [] {
      NoVectorFailure(values[1..]);
      assert forall i | 0 < i < |values| :: values[i] == values[1..][i - 1];
    }
  }

  /** A vector escapes with an overflow, instead of a protocol error, exactly when an integer too
      large for a float comes before anything else that is not a finite number. */
  lemma {:induction false} OverflowExactly(values: seq<Json>)
    ensures VectorFailure(values) == Some(Overflow)
       <==> exists i :: 0 <= i < |values| && TooLarge(values[i]) && forall j | 0 <= j < i :: IsNumber(values[j])
  {
    if values != [] {
      var rest := values[1..];
      OverflowExactly(rest);
      assert forall j | 0 < j < |values| :: values[j] == rest[j - 1];
      if VectorFailure(values) == Some(Overflow) && !TooLarge(values[0]) {
        var i :| 0 <= i < |rest| && TooLarge(rest[i]) && forall j | 0 <= j < i :: IsNumber(rest[j]);
        assert TooLarge(values[i + 1]) && forall j | 0 <= j < i + 1 :: IsNumber(values[j]);
      }
      if i :| 0 < i < |values| && TooLarge(values[i]) && forall j | 0 <= j < i :: IsNumber(values[j]) {
        assert TooLarge(rest[i - 1]) && forall j | 0 <= j < i - 1 :: IsNumber(rest[j]);
      }
    }
  }

  /** Item `k` is the first that fails. */
  ghost predicate FirstFailure(data: seq<Json>, k: nat, dimension: Option<nat>, failure: Failure) {
    && k < |data| && ItemFailure(data, k, dimension) == Some(failure)
    && forall j | 0 <= j < k :: ItemFailure(data, j, dimension).None?
  }

  /** A one-item response that makes it happen. */
  lemma HugeIntegerOverflows()
    ensures
      var item := Object(map["index" := Int(0), "embedding" := List([Int(FloatLimit())])]);
      FirstFailure([item], 0, None, Overflow)
  {
    var values := [Int(FloatLimit())];
    assert VectorFailure(values) == Some(Overflow);
  }

  /** No item fails exactly when the indices are a permutation and all vectors are valid. */
  lemma NoFailureMeansAcceptable(data: seq<Json>, dimension: Option<nat>)
    ensures (forall k | 0 <= k < |data| :: ItemFailure(data, k, dimension).None?) <==> Acceptable(data, dimension)
  {
    forall k | 0 <= k < |data| && ValuesOf(data[k]).Some?
      ensures VectorFailure(ValuesOf(data[k]).value).None?
         <==> forall i | 0 <= i < |ValuesOf(data[k]).value| :: IsNumber(ValuesOf(data[k]).value[i])
    {
      NoVectorFailure(ValuesOf(data[k]).value);
    }
    if forall k | 0 <= k < |data| :: ItemFailure(data, k, dimension).None? {
      forall j, k | 0 <= j < k < |data| ensures IndexOf(data[j]) != IndexOf(data[k]) {
        assert ItemFailure(data, k, dimension).None?;
        assert !HasIndex(data[j], IndexOf(data[k]).value);
      }
      forall k | 0 <= k < |data|
        ensures IndexOf(data[k]).Some? && 0 <= IndexOf(data[k]).value < |data| && ValidVector(data[k], dimension)
      {
        assert ItemFailure(data, k, dimension).None?;
      }
    }
    if Acceptable(data, dimension) {
      forall k | 0 <= k < |data| ensures ItemFailure(data, k, dimension).None? {
        assert ValidVector(data[k], dimension);
        forall j | 0 <= j < k ensures !HasIndex(data[j], IndexOf(data[k]).value) {
          assert IndexOf(data[j]) != IndexOf(data[k]);
        }
      }
    }
  }

  /** Item `j` is fine and its vector is at its index. */
  ghost predicate Placed(data: seq<Json>, j: nat, dimension: Option<nat>, vectors: seq<Option<seq<real>>>)
    requires j < |data| == |vectors|
  {
    ItemFailure(data, j, dimension).None? && vectors[IndexOf(data[j]).value] == Some(Floats(ValuesOf(data[j]).value))
  }

  /** The first `k` items are placed, and no other vector is filled. */
  ghost predicate Filled(data: seq<Json>, k: nat, dimension: Option<nat>, vectors: seq<Option<seq<real>>>)
    requires k <= |data| == |vectors|
  {
    && (forall j {:trigger Placed(data, j, dimension, vectors)} | 0 <= j < k :: Placed(data, j, dimension, vectors))
    && (forall i | 0 <= i < |vectors| :: vectors[i].Some? <==> exists j :: 0 <= j < k && HasIndex(data[j], i))
  }

  lemma FilledOneMore(data: seq<Json>, k: nat, dimension: Option<nat>,
                      before: seq<Option<seq<real>>>, after: seq<Option<seq<real>>>)
    requires k < |data| == |before| && Filled(data, k, dimension, before) && ItemFailure(data, k, dimension).None?
    requires after == before[IndexOf(data[k]).value := Some(Floats(ValuesOf(data[k]).value))]
    ensures Filled(data, k + 1, dimension, after)
  {
    forall j | 0 <= j < k + 1 ensures Placed(data, j, dimension, after) {
      if j < k {
        assert Placed(data, j, dimension, before) && HasIndex(data[j], IndexOf(data[j]).value);
      }
    }
    forall i | 0 <= i < |after| ensures after[i].Some? <==> exists j :: 0 <= j < k + 1 && HasIndex(data[j], i) {
      if i == IndexOf(data[k]).value { assert HasIndex(data[k], i); }
    }
  }

  /** The checks of the loop on item `k`; `vectors` holds what the items before it have filled. */
  method CheckItem(data: seq<Json>, k: nat, dimension: Option<nat>, vectors: array<Option<seq<real>>>)
    returns (failure: Option<Failure>)
    requires k < |data| == vectors.Length
    requires forall i | 0 <= i < |data| :: vectors[i].Some? <==> exists j :: 0 <= j < k && HasIndex(data[j], i)
    ensures failure == ItemFailure(data, k, dimension)
  {
    var item := data[k];
    if !item.Object? { return Some(Protocol(NotAnObject)); }
    var index := IndexOf(item);
    if index.None? || index.value < 0 || index.value >= |data| || vectors[index.value].Some? {
      return Some(Protocol(BadIndex));
    }
    var values := ValuesOf(item);
    if values.None? { return Some(Protocol(BadVector)); }
    if VectorFailure(values.value).Some? { return VectorFailure(values.value); }
    if dimension.Some? && |values.value| != dimension.value { return Some(Protocol(BadDimension)); }
    return None;
  }

  method ParseVectors(payload: Json, expected: nat, dimension: Option<nat>) returns (r: Result)
    ensures DataOf(payload).None? ==> r == Raised(Protocol(NoDataList))
    ensures DataOf(payload).Some? && |DataOf(payload).value| != expected ==> r == Raised(Protocol(CountMismatch))
    ensures r.Vectors? <==>
              DataOf(payload).Some? && |DataOf(payload).value| == expected && Acceptable(DataOf(payload).value, dimension)
    ensures r.Vectors? ==>
              && |r.vectors| == expected
              && forall k | 0 <= k < expected ::
                   var item := DataOf(payload).value[k];
                   && r.vectors[IndexOf(item).value] == Floats(ValuesOf(item).value)
                   && HoldsNumbers(r.vectors[IndexOf(item).value], ValuesOf(item).value)
    ensures r.Raised? && DataOf(payload).Some? && |DataOf(payload).value| == expected ==>
              exists k :: FirstFailure(DataOf(payload).value, k, dimension, r.failure)
    ensures r != Raised(Protocol(Incomplete))
  {
    if DataOf(payload).None? {
      return Raised(Protocol(NoDataList));
    }
    var data := DataOf(payload).value;
    if |data| != expected {
      return Raised(Protocol(CountMismatch));
    }
    NoFailureMeansAcceptable(data, dimension);
    var vectors := new Option<seq<real>>[expected](_ => None);
    for k := 0 to |data|
      invariant Filled(data, k, dimension, vectors[..])
    {
      var item := data[k];
      ghost var before := vectors[..];
      forall j | 0 <= j < k ensures ItemFailure(data, j, dimension).None? {
        assert Placed(data, j, dimension, before);
      }
      var failure := CheckItem(data, k, dimension, vectors);
      if failure.Some? {
        assert FirstFailure(data, k, dimension, failure.value);
        return Raised(failure.value);
      }
      var index, values := IndexOf(item), ValuesOf(item);
      vectors[index.value] := Some(Floats(values.value));
      FilledOneMore(data, k, dimension, before, vectors[..]);
    }
    forall j | 0 <= j < |data| ensures ItemFailure(data, j, dimension).None? {
      assert Placed(data, j, dimension, vectors[..]);
    }
    // The check for missing vectors: it never fires.
    if exists i :: 0 <= i < expected && vectors[i].None? {
      var i: int :| 0 <= i < expected && vectors[i].None?;
      EveryIndexOccurs(data, i);
      assert false;
    }
    r := Vectors(seq(expected, i requires 0 <= i < expected && vectors[i].Some? reads vectors => vectors[i].value));
    forall k | 0 <= k < expected
      ensures r.vectors[IndexOf(data[k]).value] == Floats(ValuesOf(data[k]).value)
      ensures HoldsNumbers(r.vectors[IndexOf(data[k]).value], ValuesOf(data[k]).value)
    {
      assert Placed(data, k, dimension, vectors[..]);
      assert ValidVector(data[k], dimension);
      FloatsHold(ValuesOf(data[k]).value);
    }
  }
}

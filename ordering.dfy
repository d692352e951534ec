/** The order `update_position_file` writes to `_position.yaml`: newest first
    when any record carries a creation time, otherwise the order of the
    listing. Python's `sorted(..., reverse=True)` is stable, so records with
    equal keys keep their input order. Timestamps are natural numbers here;
    string or mixed-type timestamps are not modelled. */
module Ordering {
  import opened Wrappers
  import opened Catalog
  import opened Sanitizer

  /** Python truthiness of an optional number. */
  predicate Truthy(t: Option<nat>) {
    t.Some? && t.value != 0
  }

  /** The sort key: the first truthy of `created_at`, `created` and
      `creation_time`, otherwise 0. */
  function Timestamp(m: ModelRecord): (t: nat)
    ensures t != 0 <==> Truthy(m.createdAt) || Truthy(m.created) || Truthy(m.creationTime)
    ensures Truthy(m.createdAt) ==> t == m.createdAt.value
    ensures !Truthy(m.createdAt) && Truthy(m.created) ==> t == m.created.value
    ensures !Truthy(m.createdAt) && !Truthy(m.created) && Truthy(m.creationTime) ==> t == m.creationTime.value
  {
    if Truthy(m.createdAt) then m.createdAt.value
    else if Truthy(m.created) then m.created.value
    else if Truthy(m.creationTime) then m.creationTime.value
    else 0
  }

  /** The `any(...)` test: some record has a truthy creation time. */
  predicate HasTimestamp(models: seq<ModelRecord>) {
    exists i :: 0 <= i < |models| && Timestamp(models[i]) != 0
  }

  /** `x` placed before the first element whose key is not larger than its own. */
  function Insert(x: ModelRecord, sorted: seq<ModelRecord>): seq<ModelRecord> {
    if sorted == [] || Timestamp(x) >= Timestamp(sorted[0]) then [x] + sorted
    else [sorted[0]] + Insert(x, sorted[1..])
  }

  /** The stable descending sort of `sorted(models, key=..., reverse=True)`. */
  function NewestFirst(models: seq<ModelRecord>): seq<ModelRecord> {
    if models == [] then [] else Insert(models[0], NewestFirst(models[1..]))
  }

  /** The records in the order `_position.yaml` lists them. */
  function PositionModels(models: seq<ModelRecord>): seq<ModelRecord> {
    if HasTimestamp(models) then NewestFirst(models) else models
  }

  /** The file stem of a record: `sanitize_filename(m["id"])`. */
  function Stem(m: ModelRecord): string {
    Sanitize(IdOf(m))
  }

  /** `[f(x) for x in xs]`. */
  function MapSeq<T, U>(xs: seq<T>, f: T -> U): seq<U> {
    seq(|xs|, i requires 0 <= i < |xs| => f(xs[i]))
  }

  /** The file stem of each record, in order. */
  function Stems(models: seq<ModelRecord>): seq<string> {
    MapSeq(models, Stem)
  }

  /** The list written to `_position.yaml`. */
  function PositionOrder(models: seq<ModelRecord>): seq<string> {
    Stems(PositionModels(models))
  }

  /** The records of `models` whose key is `t`, in order. */
  function WithTimestamp(models: seq<ModelRecord>, t: nat): seq<ModelRecord> {
    if models == [] then []
    else (if Timestamp(models[0]) == t then [models[0]] else []) + WithTimestamp(models[1..], t)
  }

  predicate NonIncreasing(models: seq<ModelRecord>) {
    forall i, j :: 0 <= i < j < |models| ==> Timestamp(models[i]) >= Timestamp(models[j])
  }

  // ---------------------------------------------------------------------------
  // Properties of the sort

  lemma {:induction false} InsertPermutes(x: ModelRecord, s: seq<ModelRecord>)
    ensures multiset(Insert(x, s)) == multiset(s) + multiset{x}
  {
    if !(s == [] || Timestamp(x) >= Timestamp(s[0])) {
      InsertPermutes(x, s[1..]);
      assert s == [s[0]] + s[1..];
    }
  }

  lemma {:induction false} InsertSorted(x: ModelRecord, s: seq<ModelRecord>)
    requires NonIncreasing(s)
    ensures NonIncreasing(Insert(x, s))
    ensures Insert(x, s)[0] == x || (s != [] && Insert(x, s)[0] == s[0])
  {
    if !(s == [] || Timestamp(x) >= Timestamp(s[0])) {
      var r := Insert(x, s[1..]);
      InsertSorted(x, s[1..]);
      assert Timestamp(s[0]) >= Timestamp(r[0]);
      forall i, j | 0 <= i < j < |[s[0]] + r|
        ensures Timestamp(([s[0]] + r)[i]) >= Timestamp(([s[0]] + r)[j])
      {
        if i == 0 {
          assert Timestamp(r[0]) >= Timestamp(r[j - 1]);
        }
      }
    }
  }

  lemma {:induction false} InsertStable(x: ModelRecord, s: seq<ModelRecord>, t: nat)
    ensures WithTimestamp(Insert(x, s), t)
         == (if Timestamp(x) == t then [x] else []) + WithTimestamp(s, t)
  {
    if s == [] || Timestamp(x) >= Timestamp(s[0]) {
      assert ([x] + s)[1..] == s;
    } else {
      InsertStable(x, s[1..], t);
      assert ([s[0]] + Insert(x, s[1..]))[1..] == Insert(x, s[1..]);
      assert Timestamp(s[0]) != t || Timestamp(x) != t;
    }
  }

  /** The newest-first order is a permutation of the records, is
      non-increasing by key, and keeps records with equal keys in input
      order. */
  lemma {:induction false} NewestFirstIsStableSort(models: seq<ModelRecord>)
    ensures multiset(NewestFirst(models)) == multiset(models)
    ensures NonIncreasing(NewestFirst(models))
    ensures forall t :: WithTimestamp(NewestFirst(models), t) == WithTimestamp(models, t)
  {
    if models != [] {
      var rest := NewestFirst(models[1..]);
      NewestFirstIsStableSort(models[1..]);
      InsertPermutes(models[0], rest);
      InsertSorted(models[0], rest);
      assert models == [models[0]] + models[1..];
      forall t ensures WithTimestamp(NewestFirst(models), t) == WithTimestamp(models, t) {
        InsertStable(models[0], rest, t);
      }
    }
  }

  /** Mapping a permutation gives a permutation of the images. */
  lemma {:induction false} MapPermutes<T, U>(a: seq<T>, b: seq<T>, f: T -> U)
    requires multiset(a) == multiset(b)
    ensures multiset(MapSeq(a, f)) == multiset(MapSeq(b, f))
    decreases |a|
  {
    if a != [] {
      var x := a[0];
      assert x in multiset(b);
      var k :| 0 <= k < |b| && b[k] == x;
      var b1, b2 := b[..k], b[k + 1..];
      assert b == b1 + [x] + b2;
      assert a == [x] + a[1..];
      calc {
        multiset(a[1..]);
        multiset(a) - multiset{x};
        multiset(b1 + [x] + b2) - multiset{x};
        multiset(b1) + multiset{x} + multiset(b2) - multiset{x};
        multiset(b1 + b2);
      }
      MapPermutes(a[1..], b1 + b2, f);
      MapConcat([x], a[1..], f);
      MapConcat(b1 + [x], b2, f);
      MapConcat(b1, [x], f);
      MapConcat(b1, b2, f);
    }
  }

  lemma MapConcat<T, U>(a: seq<T>, b: seq<T>, f: T -> U)
    ensures MapSeq(a + b, f) == MapSeq(a, f) + MapSeq(b, f)
  {
  }

  /** `_position.yaml` lists the stem of every record once per record: when a
      creation time exists it follows the stable newest-first order, and
      otherwise the input order. */
  lemma PositionOrderCharacterised(models: seq<ModelRecord>)
    ensures |PositionOrder(models)| == |models|
    ensures multiset(PositionOrder(models)) == multiset(Stems(models))
    ensures HasTimestamp(models) ==> NonIncreasing(PositionModels(models))
    ensures HasTimestamp(models) ==> forall t :: WithTimestamp(PositionModels(models), t) == WithTimestamp(models, t)
    ensures !HasTimestamp(models) ==> PositionOrder(models) == Stems(models)
  {
    NewestFirstIsStableSort(models);
    assert |PositionModels(models)| == |multiset(PositionModels(models))| == |models|;
    MapPermutes(PositionModels(models), models, Stem);
  }
}

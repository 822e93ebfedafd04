/**
 * The list shapes every engine operation is built from: records keyed by
 * an `id` with an `order` field, rewritten with `Array.prototype.map`,
 * shrunk with `Array.prototype.filter` and grown by appending.
 * `idOf`, `orderOf` and `merge` are the record's own accessors and its
 * `{ ...x, ...updates }` merge.
 */
module KeyedLists {

  /** `s.map(x => hit(x) ? f(x) : x)`: every element stays in place, the hit ones rewritten. */
  function MapWhere<T>(s: seq<T>, hit: T -> bool, f: T -> T): (r: seq<T>)
    ensures |r| == |s|
    ensures forall i :: 0 <= i < |s| && hit(s[i]) ==> r[i] == f(s[i])
    ensures forall i :: 0 <= i < |s| && !hit(s[i]) ==> r[i] == s[i]
  {
    if s == [] then []
    else [if hit(s[0]) then f(s[0]) else s[0]] + MapWhere(s[1..], hit, f)
  }

  /** `s.map(x => x.id === id ? { ...x, ...patch } : x)` */
  function UpdateById<T, P>(s: seq<T>, idOf: T -> string, id: string, merge: (T, P) -> T, patch: P): (r: seq<T>)
    ensures |r| == |s|
    ensures forall i :: 0 <= i < |s| && idOf(s[i]) == id ==> r[i] == merge(s[i], patch)
    ensures forall i :: 0 <= i < |s| && idOf(s[i]) != id ==> r[i] == s[i]
  {
    if s == [] then []
    else [if idOf(s[0]) == id then merge(s[0], patch) else s[0]] + UpdateById(s[1..], idOf, id, merge, patch)
  }

  /** `s.filter(x => x.id !== id)`: every element with that id goes, all others stay. */
  function RemoveById<T>(s: seq<T>, idOf: T -> string, id: string): (r: seq<T>)
    ensures |r| <= |s|
    ensures forall i :: 0 <= i < |r| ==> r[i] in s && idOf(r[i]) != id
    ensures forall i :: 0 <= i < |s| && idOf(s[i]) != id ==> s[i] in r
    ensures multiset(r) <= multiset(s)
  {
    if s == [] then []
    else
      assert s == [s[0]] + s[1..];
      (if idOf(s[0]) != id then [s[0]] else []) + RemoveById(s[1..], idOf, id)
  }

  /** Removal distributes over concatenation, so the survivors keep their relative order. */
  lemma {:induction false} RemoveByIdAppend<T>(a: seq<T>, b: seq<T>, idOf: T -> string, id: string)
    ensures RemoveById(a + b, idOf, id) == RemoveById(a, idOf, id) + RemoveById(b, idOf, id)
  {
    if a == [] {
      assert a + b == b;
    } else {
      assert (a + b)[1..] == a[1..] + b;
      RemoveByIdAppend(a[1..], b, idOf, id);
    }
  }

  // ---------- Identity and order ----------

  /** No two elements share an id. */
  ghost predicate DistinctIds<T>(s: seq<T>, idOf: T -> string) {
    forall i, j :: 0 <= i < j < |s| ==> idOf(s[i]) != idOf(s[j])
  }

  /** `id` is not used by any element of `s`. */
  ghost predicate FreshIn<T>(s: seq<T>, idOf: T -> string, id: string) {
    forall i :: 0 <= i < |s| ==> idOf(s[i]) != id
  }

  /** The `order` fields are 0, 1, ..., |s| - 1 in list position. */
  ghost predicate OrdersArePositions<T>(s: seq<T>, orderOf: T -> int) {
    forall i :: 0 <= i < |s| ==> orderOf(s[i]) == i
  }

  /** Removing an absent id changes nothing. */
  lemma {:induction false} RemoveAbsentId<T>(s: seq<T>, idOf: T -> string, id: string)
    requires FreshIn(s, idOf, id)
    ensures RemoveById(s, idOf, id) == s
  {
    if s != [] {
      RemoveAbsentId(s[1..], idOf, id);
    }
  }

  /** Removal keeps ids distinct. */
  lemma {:induction false} RemoveKeepsDistinct<T>(s: seq<T>, idOf: T -> string, id: string)
    requires DistinctIds(s, idOf)
    ensures DistinctIds(RemoveById(s, idOf, id), idOf)
  {
    if s != [] {
      var tail := RemoveById(s[1..], idOf, id);
      RemoveKeepsDistinct(s[1..], idOf, id);
      if idOf(s[0]) != id {
        forall j | 0 <= j < |tail| ensures idOf(s[0]) != idOf(tail[j]) {
          var k :| 0 <= k < |s[1..]| && s[1..][k] == tail[j];
          assert s[k + 1] == tail[j];
        }
        var r := [s[0]] + tail;
        forall i, j | 0 <= i < j < |r| ensures idOf(r[i]) != idOf(r[j]) {
          if i > 0 {
            assert r[i] == tail[i - 1] && r[j] == tail[j - 1];
          }
        }
      }
    }
  }

  /** Removal leaves no element with the removed id, so removing twice is removing once. */
  lemma RemoveIsIdempotent<T>(s: seq<T>, idOf: T -> string, id: string)
    ensures RemoveById(RemoveById(s, idOf, id), idOf, id) == RemoveById(s, idOf, id)
  {
    RemoveAbsentId(RemoveById(s, idOf, id), idOf, id);
  }

  /** Updating an absent id changes nothing. */
  lemma UpdateAbsentId<T, P>(s: seq<T>, idOf: T -> string, id: string, merge: (T, P) -> T, patch: P)
    requires FreshIn(s, idOf, id)
    ensures UpdateById(s, idOf, id, merge, patch) == s
  {
  }

  /** An update whose merge keeps the id keeps ids distinct. */
  lemma UpdateKeepsDistinct<T, P>(s: seq<T>, idOf: T -> string, id: string, merge: (T, P) -> T, patch: P)
    requires DistinctIds(s, idOf)
    requires forall x :: idOf(merge(x, patch)) == idOf(x)
    ensures DistinctIds(UpdateById(s, idOf, id, merge, patch), idOf)
  {
    var r := UpdateById(s, idOf, id, merge, patch);
    forall i, j | 0 <= i < j < |s| ensures idOf(r[i]) != idOf(r[j]) {
      assert idOf(r[i]) == idOf(s[i]) && idOf(r[j]) == idOf(s[j]);
    }
  }

  /** An update whose merge keeps the order field keeps orders equal to positions. */
  lemma UpdateKeepsOrders<T, P>(s: seq<T>, idOf: T -> string, orderOf: T -> int, id: string, merge: (T, P) -> T, patch: P)
    requires OrdersArePositions(s, orderOf)
    requires forall x :: orderOf(merge(x, patch)) == orderOf(x)
    ensures OrdersArePositions(UpdateById(s, idOf, id, merge, patch), orderOf)
  {
    var r := UpdateById(s, idOf, id, merge, patch);
    forall i | 0 <= i < |s| ensures orderOf(r[i]) == i {
      assert orderOf(r[i]) == orderOf(s[i]);
    }
  }

  /** Appending an element whose order is the old length keeps orders equal to positions. */
  lemma AppendKeepsOrders<T>(s: seq<T>, orderOf: T -> int, x: T)
    requires OrdersArePositions(s, orderOf)
    requires orderOf(x) == |s|
    ensures OrdersArePositions(s + [x], orderOf)
  {
  }

  /** Appending an element with a fresh id keeps ids distinct. */
  lemma AppendKeepsDistinct<T>(s: seq<T>, idOf: T -> string, x: T)
    requires DistinctIds(s, idOf)
    requires FreshIn(s, idOf, idOf(x))
    ensures DistinctIds(s + [x], idOf)
  {
  }

  /** A rewrite that keeps the id keeps ids distinct. */
  lemma MapWhereKeepsDistinct<T>(s: seq<T>, idOf: T -> string, hit: T -> bool, f: T -> T)
    requires DistinctIds(s, idOf)
    requires forall x :: hit(x) ==> idOf(f(x)) == idOf(x)
    ensures DistinctIds(MapWhere(s, hit, f), idOf)
  {
    var r := MapWhere(s, hit, f);
    forall i, j | 0 <= i < j < |s| ensures idOf(r[i]) != idOf(r[j]) {
      assert idOf(r[i]) == idOf(s[i]) && idOf(r[j]) == idOf(s[j]);
    }
  }

  /** A rewrite that keeps the order field keeps orders equal to positions. */
  lemma MapWhereKeepsOrders<T>(s: seq<T>, orderOf: T -> int, hit: T -> bool, f: T -> T)
    requires OrdersArePositions(s, orderOf)
    requires forall x :: hit(x) ==> orderOf(f(x)) == orderOf(x)
    ensures OrdersArePositions(MapWhere(s, hit, f), orderOf)
  {
    var r := MapWhere(s, hit, f);
    forall i | 0 <= i < |s| ensures orderOf(r[i]) == i {
      assert orderOf(r[i]) == orderOf(s[i]);
    }
  }
}

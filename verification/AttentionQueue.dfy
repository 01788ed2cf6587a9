/** The operator's queue: one item per id, in one order, whatever order a map is walked in. */
module AttentionQueue {
  import opened Sequences
  import opened Ordering
  import opened KeySets

  datatype Item = Item(id: string, priority: int, updatedAt: int, content: string)

  /** Which of two items with the same id is kept. */
  predicate Precedes(a: Item, b: Item) {
    if a.priority != b.priority then a.priority < b.priority else a.updatedAt < b.updatedAt
  }

  /** The order of the queue. */
  predicate QueueLess(a: Item, b: Item) {
    if a.priority != b.priority then a.priority < b.priority
    else if a.updatedAt != b.updatedAt then a.updatedAt < b.updatedAt
    else StringLess(a.id, b.id)
  }

  /** For every id that is not empty, the item kept. */
  function Kept(items: seq<Item>): map<string, Item> {
    if items == [] then map[] else
      var m, last := Kept(items[..|items| - 1]), items[|items| - 1];
      if last.id == "" || (last.id in m && !Precedes(last, m[last.id])) then m else m[last.id := last]
  }

  function At(m: map<string, Item>): string -> seq<Item> {
    (k: string) => if k in m then [m[k]] else []
  }

  /** The queue: the kept items in queue order. */
  ghost function Queue(items: seq<Item>): seq<Item> {
    StableSort(QueueLess, FlatMap(At(Kept(items)), SortedKeys(Kept(items).Keys)))
  }

  /** The values of a map, each once, in some order. */
  ghost predicate Enumerates(values: seq<Item>, m: map<string, Item>) {
    && Distinct(values)
    && (forall x :: x in values ==> x.id in m && m[x.id] == x)
    && (forall k :: k in m ==> m[k] in values)
  }

  lemma {:induction false} KeptById(items: seq<Item>)
    ensures forall k :: k in Kept(items) ==> Kept(items)[k].id == k && k != "" && Kept(items)[k] in items
    ensures forall x :: x in items && x.id != "" ==> x.id in Kept(items) && !Precedes(x, Kept(items)[x.id])
  {
    if items != [] {
      var before, last := items[..|items| - 1], items[|items| - 1];
      assert items == before + [last];
      KeptById(before);
    }
  }

  /** Of several items with an id none of which precedes another the first is kept. */
  lemma {:induction false} FirstOfEqualsKept(items: seq<Item>, i: nat)
    requires i < |items| && items[i].id != ""
    requires forall j :: 0 <= j < i && items[j].id == items[i].id ==> Precedes(items[i], items[j])
    requires forall j :: i < j < |items| && items[j].id == items[i].id ==> !Precedes(items[j], items[i])
    ensures items[i].id in Kept(items) && Kept(items)[items[i].id] == items[i]
  {
    var n := |items| - 1;
    var before := items[..n];
    if i < n {
      FirstOfEqualsKept(before, i);
    } else {
      KeptById(before);
      if items[i].id in Kept(before) {
        var k :| 0 <= k < n && before[k] == Kept(before)[items[i].id];
        assert items[k].id == items[i].id;
      }
    }
  }

  lemma QueueLessStrict()
    ensures StrictWeakOrder(QueueLess)
    ensures forall a: Item, b: Item :: a.id != b.id ==> QueueLess(a, b) || QueueLess(b, a)
  {
    StringLessStrict();
    hide StringLess;
  }

  /** However the values of the kept items are enumerated, sorting them gives the same list. */
  lemma EnumerationsSortAlike(a: seq<Item>, b: seq<Item>, m: map<string, Item>)
    requires Enumerates(a, m) && Enumerates(b, m)
    ensures StableSort(QueueLess, a) == StableSort(QueueLess, b)
  {
    QueueLessStrict();
    hide QueueLess, StableSort;
    DistinctSameMembers(a, b);
    SortForgetsOrder(QueueLess, a, b);
  }

  lemma {:induction false} SomeKeysEnumerate(m: map<string, Item>, keys: seq<string>)
    requires (forall k :: k in m ==> m[k].id == k) && Distinct(keys) && forall k :: k in keys ==> k in m
    ensures var values := FlatMap(At(m), keys);
            Distinct(values) && (forall x :: x in values ==> x.id in keys && m[x.id] == x)
                && (forall k :: k in keys ==> m[k] in values)
  {
    if keys != [] {
      var k, rest := keys[0], keys[1..];
      assert keys == [k] + rest && k !in rest;
      SomeKeysEnumerate(m, rest);
      assert FlatMap(At(m), keys) == [m[k]] + FlatMap(At(m), rest);
    }
  }

  lemma QueueEnumerates(items: seq<Item>)
    ensures Enumerates(FlatMap(At(Kept(items)), SortedKeys(Kept(items).Keys)), Kept(items))
  {
    KeptById(items);
    SortedKeysSorted(Kept(items).Keys);
    SomeKeysEnumerate(Kept(items), SortedKeys(Kept(items).Keys));
  }

  method KeepEarliest(items: seq<Item>) returns (byId: map<string, Item>)
    ensures byId == Kept(items)
  {
    byId := map[];
    for i := 0 to |items|
      invariant byId == Kept(items[..i])
    {
      assert items[..i + 1][..i] == items[..i];
      if items[i].id == "" { continue; }
      if items[i].id !in byId || Precedes(items[i], byId[items[i].id]) { byId := byId[items[i].id := items[i]]; }
    }
    assert items[..|items|] == items;
  }

  /** The map is walked in any order, and the queue is the same. */
  method BuildAttentionQueue(items: seq<Item>) returns (queue: seq<Item>)
    ensures queue == Queue(items)
  {
    hide Kept, StableSort, QueueLess, FlatMap, SortedKeys;
    var byId := KeepEarliest(items);
    KeptById(items);
    var result: seq<Item>, left := [], byId.Keys;
    while left != {}
      invariant left <= byId.Keys && Distinct(result)
      invariant forall x :: x in result ==> x.id in byId && x.id !in left && byId[x.id] == x
      invariant forall k :: k in byId && k !in left ==> byId[k] in result
      decreases left
    {
      var k :| k in left;
      result, left := result + [byId[k]], left - {k};
    }
    QueueEnumerates(items);
    EnumerationsSortAlike(result, FlatMap(At(byId), SortedKeys(byId.Keys)), byId);
    queue := StableSort(QueueLess, result);
  }

  // -------------------------------------------------------------- theorems

  /** The queue is strictly ascending, with one item for every id that is not empty: an earliest one. */
  lemma QueueShape(items: seq<Item>)
    ensures var q := Queue(items);
            && (forall i, j :: 0 <= i < j < |q| ==> QueueLess(q[i], q[j]) && q[i].id != q[j].id)
            && (forall x :: x in q ==>
                  x in items && x.id != "" && forall y :: y in items && y.id == x.id ==> !Precedes(y, x))
            && (forall y :: y in items && y.id != "" ==> exists x :: x in q && x.id == y.id)
  {
    KeptById(items);
    QueueEnumerates(items);
    QueueLessStrict();
    var m, q := Kept(items), Queue(items);
    var values := FlatMap(At(m), SortedKeys(m.Keys));
    StableSortSorted(QueueLess, values);
    DistinctPermutation(values, q);
    hide Kept, StableSort, QueueLess, FlatMap, SortedKeys, Precedes;
    forall i, j | 0 <= i < j < |q| ensures QueueLess(q[i], q[j]) && q[i].id != q[j].id {
      assert q[i] in values && q[j] in values;
    }
    forall y | y in items && y.id != "" ensures exists x :: x in q && x.id == y.id {
      assert m[y.id] in values && m[y.id] in q;
    }
  }

  /** An item of the queue comes before another by priority, then by age, then by id; and of the items with its id it
      has the first priority and of those the greatest age. */
  lemma QueueOrder(items: seq<Item>, i: nat, j: nat, y: Item)
    requires i < j < |Queue(items)| && y in items && y.id == Queue(items)[i].id
    ensures var a, b := Queue(items)[i], Queue(items)[j];
      && a.priority <= b.priority
      && (a.priority == b.priority ==> a.updatedAt <= b.updatedAt)
      && (a.priority == b.priority && a.updatedAt == b.updatedAt ==> StringLess(a.id, b.id))
    ensures var a := Queue(items)[i];
      a.priority <= y.priority && (a.priority == y.priority ==> a.updatedAt <= y.updatedAt)
  {
    QueueShape(items);
    hide Queue, StringLess;
    assert QueueLess(Queue(items)[i], Queue(items)[j]) && Queue(items)[i] in Queue(items);
  }

  /** Rebuilding a queue from itself changes nothing. */
  lemma RebuildChangesNothing(items: seq<Item>)
    ensures Queue(Queue(items)) == Queue(items)
  {
    QueueShape(items);
    hide *;
    OrderedQueueStays(Queue(items));
  }

  /** A queue that is strictly ascending, with one item for each id, stays as it is. */
  lemma OrderedQueueStays(q: seq<Item>)
    requires forall i, j :: 0 <= i < j < |q| ==> QueueLess(q[i], q[j]) && q[i].id != q[j].id
    requires forall x :: x in q ==> x.id != ""
    ensures Queue(q) == q
  {
    hide Kept, StableSort, QueueLess, FlatMap, SortedKeys, Precedes;
    var m := Kept(q);
    QueueEnumerates(q);
    OwnMap(q);
    EnumerationsSortAlike(q, FlatMap(At(m), SortedKeys(m.Keys)), m);
    QueueLessStrict();
    AscendingSorted(q);
    SortedStays(QueueLess, q);
  }

  lemma AscendingSorted(q: seq<Item>)
    requires forall i, j :: 0 <= i < j < |q| ==> QueueLess(q[i], q[j])
    ensures Sorted(QueueLess, q)
  {
    QueueLessStrict();
    hide QueueLess;
    forall i, j | 0 <= i < j < |q| ensures !QueueLess(q[j], q[i]) { assert QueueLess(q[i], q[j]); }
  }

  /** Items with distinct ids are the values of their own map. */
  lemma OwnMap(q: seq<Item>)
    requires forall i, j :: 0 <= i < j < |q| ==> q[i].id != q[j].id
    requires forall x :: x in q ==> x.id != ""
    ensures Enumerates(q, Kept(q))
  {
    KeptById(q);
    hide Kept, Precedes;
    var m := Kept(q);
    forall x | x in q ensures x.id in m && m[x.id] == x {
      var i :| 0 <= i < |q| && q[i] == x;
      var j :| 0 <= j < |q| && q[j] == m[x.id];
    }
  }
}

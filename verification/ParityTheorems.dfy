/** Two candidates compare as equivalent exactly when they agree up to the order of their lists. */
module ParityTheorems {
  import opened Results
  import opened Sequences
  import opened CandidateParity
  import opened ReferenceParity

  // ---------------------------------------------------- what equal means

  /** The last item with an id. */
  function LastWith(items: seq<Json>, id: string): Option<Json> {
    if items == [] then None
    else if IdOf(items[|items| - 1]) == id then Some(items[|items| - 1])
    else LastWith(items[..|items| - 1], id)
  }

  predicate IdFrom(items: seq<Json>, i: nat, id: string) {
    exists j :: i <= j < |items| && IdOf(items[j]) == id
  }

  /** What stands under the position i: the item there if it has no id, unless an item from there on has the
      position as its id; failing that, the last item with the position as its id. */
  function EntitySlot(items: seq<Json>, i: nat): Option<Json> {
    if i < |items| && IdOf(items[i]) == "" && !IdFrom(items, i, Positional(i)) then Some(items[i])
    else LastWith(items, Positional(i))
  }

  /** The same, up to order, under every id and every position. */
  ghost predicate SameEntities(schema: Schema, ls: seq<Json>, rs: seq<Json>)
    decreases schema, 5
  {
    && (forall id :: id != "" && !IsPositional(id) ==> SameHeld(schema, LastWith(ls, id), LastWith(rs, id)))
    && forall i: nat :: SameHeld(schema, EntitySlot(ls, i), EntitySlot(rs, i))
  }

  ghost predicate SameHeld(schema: Schema, a: Option<Json>, b: Option<Json>)
    decreases schema, 4
  {
    if a.Some? && b.Some? then SameUpToOrder(schema, a.value, b.value) else a == b
  }

  /** The same object up to the order of the entities with ids, and of references as far as their names go; every
      other value is the same. */
  ghost predicate SameUpToOrder(schema: Schema, l: Json, r: Json)
    decreases schema, 3
  {
    if l.Obj? && r.Obj? then
      l.fields.Keys == r.fields.Keys && forall k :: k in l.fields ==> SameField(schema, k, l.fields[k], r.fields[k])
    else l == r
  }

  ghost predicate SameField(schema: Schema, k: string, v: Json, w: Json)
    decreases schema, 2
  {
    if k in schema.entities && v.Arr? && w.Arr? then SameEntities(schema.entities[k], v.items, w.items)
    else if k in schema.references && v.Arr? && w.Arr? then SameReferences(v.items, w.items)
    else v == w
  }

  /** Where the schema has lists there are no objects. Items need no ids, ids may repeat, and lists of references
      may hold anything. */
  ghost predicate Typed(schema: Schema, j: Json)
    decreases schema, 1
  {
    j.Obj? ==> forall k :: k in j.fields ==> TypedField(schema, k, j.fields[k])
  }

  ghost predicate TypedField(schema: Schema, k: string, v: Json)
    decreases schema, 0
  {
    && (k in schema.entities && v.Arr? ==> forall x :: x in v.items ==> Typed(schema.entities[k], x))
    && (k in schema.entities || k in schema.references ==> !v.Obj?)
  }

  /** No id but the empty one occurs twice. */
  ghost predicate DistinctIds(ids: seq<string>) {
    forall i, j :: 0 <= i < j < |ids| && ids[i] != "" ==> ids[i] != ids[j]
  }

  ghost predicate DistinctEntities(items: seq<Json>) {
    DistinctIds(Ids(items))
  }

  /** No list of entities, however deep, holds an id twice; items without an id do not count. */
  ghost predicate NoDuplicates(schema: Schema, j: Json)
    decreases schema, 1
  {
    forall k :: k in schema.entities ==>
      DistinctEntities(ItemsOf(j, k)) && forall x :: x in ItemsOf(j, k) ==> NoDuplicates(schema.entities[k], x)
  }

  /** Every entity list is checked, and every one whose items have lists is descended into. */
  ghost predicate WellFormed(schema: Schema) {
    && (forall k :: k in schema.order <==> k in schema.entities)
    && (forall k :: k in schema.nested ==> k in schema.entities)
    && (forall k :: k in schema.entities ==> WellFormed(schema.entities[k]))
    && (forall k :: k in schema.entities && k !in schema.nested ==> schema.entities[k].entities == map[])
    && schema.entities.Keys !! schema.references
    && "id" !in schema.entities && "id" !in schema.references
  }

  // ------------------------------------------------ conversion to a map

  lemma KeyIsIdOrPosition(x: Json, i: nat)
    ensures EntityKey(x, i) == if IdOf(x) == "" then Positional(i) else IdOf(x)
  {
  }

  lemma EntitySlotNext(items: seq<Json>, i: nat)
    requires items != []
    ensures var n := |items| - 1;
      EntitySlot(items, i) ==
        if EntityKey(items[n], n) == Positional(i) then Some(items[n]) else EntitySlot(items[..n], i)
  {
    var n, before := |items| - 1, items[..|items| - 1];
    hide IdOf, EntityKey, Positional;
    KeyIsIdOrPosition(items[n], n);
    if Positional(n) == Positional(i) { PositionalInjective(n, i); }
    PositionalNotEmpty(i);
    IdFromNext(items, i, Positional(i));
  }

  lemma PositionalNotEmpty(i: nat)
    ensures Positional(i) != ""
  {
  }

  lemma IdFromNext(items: seq<Json>, i: nat, id: string)
    requires items != []
    ensures var n := |items| - 1;
      IdFrom(items, i, id) <==> IdFrom(items[..n], i, id) || (i <= n && IdOf(items[n]) == id)
  {
    hide IdOf;
    var n := |items| - 1;
    if IdFrom(items[..n], i, id) {
      var j :| i <= j < n && IdOf(items[..n][j]) == id;
      assert items[j] == items[..n][j];
    }
    if j :| i <= j < n && IdOf(items[j]) == id { assert items[..n][j] == items[j]; }
  }

  lemma {:induction false} EntitySlotConverted(items: seq<Json>, i: nat)
    ensures Under(Converted(items, EntityKey), Positional(i)) == EntitySlot(items, i)
  {
    hide Positional, EntityKey;
    if items != [] {
      EntitySlotNext(items, i);
      hide EntitySlot;
      EntitySlotConverted(items[..|items| - 1], i);
    }
  }

  lemma {:induction false} IdConverted(items: seq<Json>, id: string)
    requires id != "" && !IsPositional(id)
    ensures Under(Converted(items, EntityKey), id) == LastWith(items, id)
  {
    hide Positional, EntityKey, IdOf;
    if items != [] {
      var n := |items| - 1;
      IdConverted(items[..n], id);
      KeyIsIdOrPosition(items[n], n);
    }
  }

  lemma {:induction false} NoEmptyEntityKey(items: seq<Json>)
    ensures "" !in Converted(items, EntityKey)
  {
    if items != [] { NoEmptyEntityKey(items[..|items| - 1]); }
  }

  // ---------------------------------------- one list, given its items agree

  /** The map of normalised items by id. */
  ghost function Filed(schema: Schema, items: seq<Json>): map<string, Json> {
    var m := Converted(items, EntityKey);
    map x | x in m :: Normalized(schema, m[x])
  }

  ghost predicate ItemsAgree(schema: Schema, ls: seq<Json>, rs: seq<Json>) {
    forall l, r ::
        l in ls && r in rs ==> (Normalized(schema, l) == Normalized(schema, r) <==> SameUpToOrder(schema, l, r))
  }

  lemma {:induction false} ConvertedWithin(items: seq<Json>, k: string)
    requires k in Converted(items, EntityKey)
    ensures Converted(items, EntityKey)[k] in items
  {
    hide EntityKey;
    var n := |items| - 1;
    if EntityKey(items[n], n) != k { ConvertedWithin(items[..n], k); }
  }

  /** Under one key the normal forms are equal exactly if what stands there is the same. */
  lemma HeldAgree(schema: Schema, ls: seq<Json>, rs: seq<Json>, k: string)
    requires ItemsAgree(schema, ls, rs)
    ensures Under(Filed(schema, ls), k) == Under(Filed(schema, rs), k) <==>
      SameHeld(schema, Under(Converted(ls, EntityKey), k), Under(Converted(rs, EntityKey), k))
  {
    hide EntityKey, Normalized, SameUpToOrder, Converted;
    if k in Converted(ls, EntityKey) { ConvertedWithin(ls, k); }
    if k in Converted(rs, EntityKey) { ConvertedWithin(rs, k); }
  }

  /** Two lists of entities, whatever their ids, have equal normal forms exactly if the same stands under every id
      and every position. */
  lemma ListsAgree(schema: Schema, ls: seq<Json>, rs: seq<Json>)
    requires ItemsAgree(schema, ls, rs)
    ensures Filed(schema, ls) == Filed(schema, rs) <==> SameEntities(schema, ls, rs)
  {
    hide EntityKey, Filed, ItemsAgree, SameHeld, Converted, EntitySlot, LastWith, Positional, Under;
    var a, b := Filed(schema, ls), Filed(schema, rs);
    forall i: nat
      ensures Under(a, Positional(i)) == Under(b, Positional(i)) <==>
        SameHeld(schema, EntitySlot(ls, i), EntitySlot(rs, i))
    {
      HeldAgree(schema, ls, rs, Positional(i));
      EntitySlotConverted(ls, i);
      EntitySlotConverted(rs, i);
    }
    forall id | id != "" && !IsPositional(id)
      ensures Under(a, id) == Under(b, id) <==> SameHeld(schema, LastWith(ls, id), LastWith(rs, id))
    {
      HeldAgree(schema, ls, rs, id);
      IdConverted(ls, id);
      IdConverted(rs, id);
    }
    if SameEntities(schema, ls, rs) {
      NothingUnderEmpty(schema, ls);
      NothingUnderEmpty(schema, rs);
      forall k ensures Under(a, k) == Under(b, k) {
        if IsPositional(k) {
          var i: nat :| k == Positional(i);
          assert SameHeld(schema, EntitySlot(ls, i), EntitySlot(rs, i));
        }
      }
      SameUnder(a, b);
    }
  }

  lemma NothingUnderEmpty(schema: Schema, items: seq<Json>)
    ensures Under(Filed(schema, items), "") == None
  {
    NoEmptyEntityKey(items);
    hide Converted, Normalized;
  }

  // ------------------------------------------------------- whole documents

  /** Normal forms are equal exactly for documents that are the same up to order. */
  lemma {:induction false} NormalizedAgree(schema: Schema, l: Json, r: Json)
    requires WellFormed(schema) && Typed(schema, l) && Typed(schema, r)
    ensures Normalized(schema, l) == Normalized(schema, r) <==> SameUpToOrder(schema, l, r)
    decreases schema, 1
  {
    if l.Obj? && r.Obj? {
      if l.fields.Keys == r.fields.Keys {
        forall k | k in l.fields
          ensures NormalizedField(schema, k, l.fields[k]) == NormalizedField(schema, k, r.fields[k])
                  <==> SameField(schema, k, l.fields[k], r.fields[k])
        {
          FieldAgrees(schema, k, l, r);
        }
      }
      var a, b := Normalized(schema, l), Normalized(schema, r);
      assert a.fields.Keys == l.fields.Keys && b.fields.Keys == r.fields.Keys;
      if SameUpToOrder(schema, l, r) { assert a.fields == b.fields; }
      if a == b {
        forall k | k in l.fields ensures SameField(schema, k, l.fields[k], r.fields[k]) {
          assert a.fields[k] == b.fields[k];
        }
      }
    }
  }

  lemma {:induction false} FieldAgrees(schema: Schema, k: string, l: Json, r: Json)
    requires WellFormed(schema) && Typed(schema, l) && Typed(schema, r)
    requires l.Obj? && r.Obj? && k in l.fields && k in r.fields
    ensures NormalizedField(schema, k, l.fields[k]) == NormalizedField(schema, k, r.fields[k])
            <==> SameField(schema, k, l.fields[k], r.fields[k])
    decreases schema, 0
  {
    var v, w := l.fields[k], r.fields[k];
    assert TypedField(schema, k, v) && TypedField(schema, k, w);
    if k in schema.entities && v.Arr? && w.Arr? {
      var sub := schema.entities[k];
      forall x, y | x in v.items && y in w.items
        ensures Normalized(sub, x) == Normalized(sub, y) <==> SameUpToOrder(sub, x, y) {
        NormalizedAgree(sub, x, y);
      }
      ListsAgree(sub, v.items, w.items);
      assert NormalizedField(schema, k, v) == Obj(Filed(sub, v.items));
      assert NormalizedField(schema, k, w) == Obj(Filed(sub, w.items));
    } else if k in schema.references && v.Arr? && w.Arr? {
      ReferencesAgree(v.items, w.items);
    }
  }

  // -------------------------------------- lists without clashing ids

  /** p maps the positions of a list one to one onto those of another. */
  ghost predicate Permutes(p: seq<nat>, n: nat) {
    && |p| == n
    && (forall i :: 0 <= i < n ==> p[i] < n)
    && (forall i, j :: 0 <= i < j < n ==> p[i] != p[j])
    && (forall k: nat :: k < n ==> k in p)
  }

  /** The items that p matches up are the same, and an item without an id keeps its place. */
  ghost predicate SameItems(schema: Schema, ls: seq<Json>, rs: seq<Json>, p: seq<nat>)
    requires Permutes(p, |rs|) && |ls| == |rs|
  {
    forall i :: 0 <= i < |ls| ==> SameUpToOrder(schema, ls[i], rs[p[i]]) && (IdOf(ls[i]) == "" ==> p[i] == i)
  }

  /** No item without an id has its position for another's id. */
  ghost predicate NoClash(items: seq<Json>) {
    forall i: nat, j: nat :: i < |items| && j < |items| && IdOf(items[i]) == "" ==> IdOf(items[j]) != Positional(i)
  }

  /** The keys under which the items of a list are filed. */
  function ItemKeys(items: seq<Json>): (r: seq<string>)
    ensures |r| == |items| && forall i :: 0 <= i < |items| ==> r[i] == EntityKey(items[i], i)
  {
    seq(|items|, i requires 0 <= i < |items| => EntityKey(items[i], i))
  }

  ghost predicate Entities(items: seq<Json>) {
    DistinctEntities(items) && NoClash(items)
  }

  lemma KeysDistinct(items: seq<Json>)
    requires Entities(items)
    ensures Distinct(ItemKeys(items))
  {
    hide IdOf, EntityKey, Positional;
    forall i, j | 0 <= i < j < |items| ensures EntityKey(items[i], i) != EntityKey(items[j], j) {
      KeyIsIdOrPosition(items[i], i);
      KeyIsIdOrPosition(items[j], j);
      if IdOf(items[i]) == "" && IdOf(items[j]) == "" {
        if Positional(i) == Positional(j) { PositionalInjective(i, j); }
      } else if IdOf(items[i]) != "" && IdOf(items[j]) != "" {
        assert Ids(items)[i] != Ids(items)[j];
      }
    }
  }

  /** With distinct keys, converting a list files each item under its key. */
  lemma {:induction false} ConvertedAt(items: seq<Json>, i: nat)
    requires Distinct(ItemKeys(items)) && i < |items|
    ensures Under(Converted(items, EntityKey), ItemKeys(items)[i]) == Some(items[i])
  {
    hide EntityKey;
    var n, keys := |items| - 1, ItemKeys(items);
    if i < n {
      assert ItemKeys(items[..n]) == keys[..n];
      assert keys[i] != keys[n];
      ConvertedAt(items[..n], i);
    }
  }

  lemma {:induction false} ConvertedKey(items: seq<Json>, k: string)
    requires k in Converted(items, EntityKey)
    ensures k in ItemKeys(items)
  {
    hide EntityKey;
    var n, keys := |items| - 1, ItemKeys(items);
    assert ItemKeys(items[..n]) == keys[..n];
    if k != keys[n] { ConvertedKey(items[..n], k); }
  }

  lemma FiledByKey(schema: Schema, items: seq<Json>)
    requires Entities(items)
    ensures Distinct(ItemKeys(items))
    ensures forall i :: 0 <= i < |items| ==>
      ItemKeys(items)[i] in Filed(schema, items)
      && Filed(schema, items)[ItemKeys(items)[i]] == Normalized(schema, items[i])
    ensures forall k :: k in ItemKeys(items) <==> k in Filed(schema, items)
  {
    hide EntityKey, Entities, Normalized, Converted;
    KeysDistinct(items);
    forall i | 0 <= i < |items| ensures Under(Converted(items, EntityKey), ItemKeys(items)[i]) == Some(items[i]) {
      ConvertedAt(items, i);
    }
    forall k | k in Converted(items, EntityKey) ensures k in ItemKeys(items) { ConvertedKey(items, k); }
  }

  ghost function PositionOf(ids: seq<string>, id: string): (i: nat)
    requires id in ids
    ensures i < |ids| && ids[i] == id
  {
    var i: nat :| i < |ids| && ids[i] == id;
    i
  }

  /** Two lists of the same distinct ids are matched up by a permutation. */
  lemma SameIdsPermute(a: seq<string>, b: seq<string>) returns (p: seq<nat>)
    requires Distinct(a) && Distinct(b) && forall x :: x in a <==> x in b
    ensures |a| == |b| && Permutes(p, |b|)
    ensures forall i :: 0 <= i < |a| ==> b[p[i]] == a[i]
  {
    DistinctSameMembers(a, b);
    SameElements(a, b);
    p := seq(|a|, i requires 0 <= i < |a| => PositionOf(b, a[i]));
    forall k: nat | k < |b| ensures k in p {
      var i := PositionOf(a, b[k]);
      assert b[p[i]] == b[k];
      assert p[i] == k;
    }
    forall i, j | 0 <= i < j < |b| ensures p[i] != p[j] { assert b[p[i]] == a[i] && b[p[j]] == a[j]; }
  }

  /** Equal maps give a permutation. */
  lemma FiledEqualPermutes(schema: Schema, ls: seq<Json>, rs: seq<Json>) returns (p: seq<nat>)
    requires Entities(ls) && Entities(rs) && Filed(schema, ls) == Filed(schema, rs)
    ensures |ls| == |rs| && Permutes(p, |rs|)
    ensures forall i :: 0 <= i < |ls| ==>
      Normalized(schema, ls[i]) == Normalized(schema, rs[p[i]]) && ItemKeys(rs)[p[i]] == ItemKeys(ls)[i]
  {
    hide Filed, Entities, ItemKeys, Normalized;
    FiledByKey(schema, ls);
    FiledByKey(schema, rs);
    p := SameIdsPermute(ItemKeys(ls), ItemKeys(rs));
    forall i | 0 <= i < |ls| ensures Normalized(schema, ls[i]) == Normalized(schema, rs[p[i]]) {
      assert ItemKeys(rs)[p[i]] == ItemKeys(ls)[i];
    }
  }

  /** A permutation gives equal maps. */
  lemma PermutesFiledEqual(schema: Schema, ls: seq<Json>, rs: seq<Json>, p: seq<nat>)
    requires Entities(ls) && Entities(rs) && |ls| == |rs| && Permutes(p, |rs|)
    requires forall i :: 0 <= i < |ls| ==>
      ItemKeys(ls)[i] == ItemKeys(rs)[p[i]] && Normalized(schema, ls[i]) == Normalized(schema, rs[p[i]])
    ensures Filed(schema, ls) == Filed(schema, rs)
  {
    hide *;
    var m, n := Filed(schema, ls), Filed(schema, rs);
    FiledByKey(schema, ls);
    FiledByKey(schema, rs);
    KeysReached(ItemKeys(ls), ItemKeys(rs), p);
    forall k | k in m ensures k in n && m[k] == n[k] {
      var i :| 0 <= i < |ls| && ItemKeys(ls)[i] == k;
      assert ItemKeys(rs)[p[i]] == k;
    }
    assert m == n;
  }

  /** What a permutation reaches is everything. */
  lemma KeysReached(a: seq<string>, b: seq<string>, p: seq<nat>)
    requires |a| == |b| && Permutes(p, |b|) && forall i :: 0 <= i < |a| ==> a[i] == b[p[i]]
    ensures forall k :: k in b ==> k in a
    ensures |p| == |b| && forall i :: 0 <= i < |a| ==> p[i] < |b|
  {
    forall k | k in b ensures k in a {
      var j: nat :| j < |b| && b[j] == k;
      assert j in p;
      var i :| 0 <= i < |b| && p[i] == j;
      assert a[i] == k;
    }
  }

  lemma SameHasSameId(schema: Schema, l: Json, r: Json)
    requires WellFormed(schema) && SameUpToOrder(schema, l, r)
    ensures IdOf(l) == IdOf(r)
  {
    if l.Obj? && r.Obj? && "id" in l.fields { assert SameField(schema, "id", l.fields["id"], r.fields["id"]); }
  }

  /** Of two items that are the same the keys agree exactly if they have an id or stand at the same place. */
  lemma SameKeys(schema: Schema, l: Json, r: Json, i: nat, j: nat)
    requires WellFormed(schema) && SameUpToOrder(schema, l, r)
    ensures EntityKey(l, i) == EntityKey(r, j) <==> (IdOf(l) == "" ==> i == j)
  {
    SameHasSameId(schema, l, r);
    hide IdOf, EntityKey, SameUpToOrder, Positional;
    KeyIsIdOrPosition(l, i);
    KeyIsIdOrPosition(r, j);
    if IdOf(l) == "" && Positional(i) == Positional(j) { PositionalInjective(i, j); }
  }

  lemma FiledPermutes(schema: Schema, ls: seq<Json>, rs: seq<Json>)
    requires WellFormed(schema) && Entities(ls) && Entities(rs) && ItemsAgree(schema, ls, rs)
    ensures Filed(schema, ls) == Filed(schema, rs)
       <==> |ls| == |rs| && exists p :: Permutes(p, |rs|) && SameItems(schema, ls, rs, p)
  {
    hide Filed, Entities, Normalized, EntityKey, SameUpToOrder, IdOf, WellFormed;
    if Filed(schema, ls) == Filed(schema, rs) {
      var p := FiledEqualPermutes(schema, ls, rs);
      forall i | 0 <= i < |ls| ensures SameUpToOrder(schema, ls[i], rs[p[i]]) && (IdOf(ls[i]) == "" ==> p[i] == i) {
        assert ls[i] in ls && rs[p[i]] in rs;
        SameKeys(schema, ls[i], rs[p[i]], i, p[i]);
      }
      assert SameItems(schema, ls, rs, p);
    }
    if |ls| == |rs| && exists p :: Permutes(p, |rs|) && SameItems(schema, ls, rs, p) {
      var p :| Permutes(p, |rs|) && SameItems(schema, ls, rs, p);
      forall i | 0 <= i < |ls|
        ensures ItemKeys(ls)[i] == ItemKeys(rs)[p[i]] && Normalized(schema, ls[i]) == Normalized(schema, rs[p[i]])
      {
        assert ls[i] in ls && rs[p[i]] in rs;
        SameKeys(schema, ls[i], rs[p[i]], i, p[i]);
      }
      PermutesFiledEqual(schema, ls, rs, p);
    }
  }

  /** For lists without repeated or clashing ids this means: as many items, and a permutation that matches up the
      same items and moves only items with ids. */
  lemma EntitiesPermute(schema: Schema, ls: seq<Json>, rs: seq<Json>)
    requires WellFormed(schema) && Entities(ls) && Entities(rs)
    requires (forall x :: x in ls ==> Typed(schema, x)) && forall x :: x in rs ==> Typed(schema, x)
    ensures SameEntities(schema, ls, rs)
       <==> |ls| == |rs| && exists p :: Permutes(p, |rs|) && SameItems(schema, ls, rs, p)
  {
    hide Entities, WellFormed, Typed, Normalized, SameUpToOrder, SameEntities, Filed, SameItems;
    forall x, y | x in ls && y in rs
      ensures Normalized(schema, x) == Normalized(schema, y) <==> SameUpToOrder(schema, x, y) {
      NormalizedAgree(schema, x, y);
    }
    ListsAgree(schema, ls, rs);
    FiledPermutes(schema, ls, rs);
  }

  /** The condition is needed there: an item without an id disappears behind one that has its position for an id, so
      that lists of different items have the same normal form. */
  lemma ClashHidesEntity(schema: Schema)
    ensures var ls, rs := [Obj(map[]), NamedZero()], [NamedZero()];
      !NoClash(ls) && DistinctEntities(ls) && |ls| != |rs| && Filed(schema, ls) == Filed(schema, rs)
  {
    var ls, rs := [Obj(map[]), NamedZero()], [NamedZero()];
    assert IdOf(ls[0]) == "" && IdOf(ls[1]) == Positional(0);
    assert ls[..1] == [Obj(map[])] && ls[..1][..0] == [] && rs[..0] == [];
    assert Converted(rs, EntityKey) == map[Positional(0) := NamedZero()];
    assert Converted(ls[..1], EntityKey) == map[Positional(0) := Obj(map[])];
    assert Converted(ls, EntityKey) == Converted(rs, EntityKey);
  }

  /** An entity whose id reads like the first position. */
  function NamedZero(): Json { Obj(map["id" := Str(Positional(0))]) }

  // ---------------------------------------------------------- duplicates

  lemma ConcatEmpty(a: seq<Difference>, b: seq<Difference>)
    ensures a + b == [] <==> a == [] && b == []
  {
    assert |a + b| == |a| + |b|;
  }

  lemma DistinctStep(ids: seq<string>, n: nat)
    requires n < |ids|
    ensures DistinctIds(ids[..n + 1]) <==> DistinctIds(ids[..n]) && (ids[n] == "" || ids[n] !in ids[..n])
  {
    var s, t := ids[..n], ids[..n + 1];
    assert t == s + [ids[n]];
    if DistinctIds(t) {
      forall i | 0 <= i < n && s[i] != "" ensures s[i] != ids[n] { assert t[i] == s[i]; }
      forall i, j | 0 <= i < j < n && s[i] != "" ensures s[i] != s[j] { assert t[i] == s[i] && t[j] == s[j]; }
    }
  }

  lemma {:induction false} RepeatsEmpty(path: Path, ids: seq<string>, n: nat)
    requires n <= |ids|
    ensures Repeats(path, ids, n) == [] <==> DistinctIds(ids[..n])
  {
    hide *;
    if n > 0 {
      RepeatsEmpty(path, ids, n - 1);
      DistinctStep(ids, n - 1);
      RepeatsNext(path, ids, n - 1);
      ConcatEmpty(Repeats(path, ids, n - 1), RepeatAt(path, ids, n - 1));
    } else {
      NoIdsDistinct(ids[..0]);
      RepeatsNothing(path, ids);
    }
  }

  lemma RepeatsNext(path: Path, ids: seq<string>, n: nat)
    requires n < |ids|
    ensures Repeats(path, ids, n + 1) == Repeats(path, ids, n) + RepeatAt(path, ids, n)
    ensures RepeatAt(path, ids, n) == [] <==> ids[n] == "" || ids[n] !in ids[..n]
  {
  }

  lemma RepeatsNothing(path: Path, ids: seq<string>)
    ensures Repeats(path, ids, 0) == []
  {
  }

  lemma NoIdsDistinct(ids: seq<string>)
    requires ids == []
    ensures DistinctIds(ids)
  {
  }

  lemma ListRepeatsEmpty(path: Path, j: Json, k: string)
    ensures ListRepeats(path, j, k) == [] <==> DistinctEntities(ItemsOf(j, k))
  {
    var items := ItemsOf(j, k);
    RepeatsEmpty(Field(path, k), Ids(items), |items|);
    assert Ids(items)[..|items|] == Ids(items);
  }

  lemma {:induction false} DirectRepeatsEmpty(schema: Schema, path: Path, j: Json, n: nat)
    requires WellFormed(schema) && n <= |schema.order|
    ensures DirectRepeats(path, j, schema.order, n) == []
            <==> forall k :: k in schema.order[..n] ==> DistinctEntities(ItemsOf(j, k))
  {
    hide IdOf, ListRepeats, ItemsOf, DistinctEntities;
    if n > 0 {
      var k := schema.order[n - 1];
      DirectRepeatsEmpty(schema, path, j, n - 1);
      assert k in schema.order;
      ListRepeatsEmpty(path, j, k);
      var last, before := ListRepeats(path, j, k), DirectRepeats(path, j, schema.order, n - 1);
      assert DirectRepeats(path, j, schema.order, n) == before + last;
      assert schema.order[..n] == schema.order[..n - 1] + [k];
    }
  }

  ghost predicate ItemsClean(schema: Schema, items: seq<Json>) {
    forall x :: x in items ==> NoDuplicates(schema, x)
  }

  lemma {:induction false} NestedInEmpty(schema: Schema, path: Path, j: Json, k: string)
    requires WellFormed(schema) && k in schema.entities
    ensures NestedIn(schema, path, j, k) == [] <==> ItemsClean(schema.entities[k], ItemsOf(j, k))
    decreases schema, 0, 0
  {
    var items := ItemsOf(j, k);
    ItemRepeatsEmpty(schema.entities[k], Field(path, k), items, |items|);
    assert items[..|items|] == items;
  }

  lemma {:induction false} NestedRepeatsEmpty(schema: Schema, path: Path, j: Json, n: nat)
    requires WellFormed(schema) && n <= |schema.nested|
    ensures NestedRepeats(schema, path, j, n) == []
            <==> forall k ::
                k in schema.nested[..n] && k in schema.entities ==> ItemsClean(schema.entities[k], ItemsOf(j, k))
    decreases schema, 1, n
  {
    hide IdOf, NestedIn, ItemsOf, ItemsClean, DuplicatesIn;
    if n > 0 {
      var k := schema.nested[n - 1];
      assert k in schema.nested;
      NestedRepeatsEmpty(schema, path, j, n - 1);
      NestedInEmpty(schema, path, j, k);
      var last, before := NestedIn(schema, path, j, k), NestedRepeats(schema, path, j, n - 1);
      assert NestedRepeats(schema, path, j, n) == before + last;
      assert schema.nested[..n] == schema.nested[..n - 1] + [k];
    }
  }

  lemma {:induction false} ItemRepeatsEmpty(schema: Schema, path: Path, items: seq<Json>, n: nat)
    requires WellFormed(schema) && n <= |items|
    ensures ItemRepeats(schema, path, items, n) == [] <==> ItemsClean(schema, items[..n])
    decreases schema, 3, n
  {
    hide IdOf, DirectRepeats, NestedRepeats, DuplicatesIn, NoDuplicates, WellFormed;
    if n > 0 {
      var x, here := items[n - 1], Entity(path, IdOf(items[n - 1]));
      ItemRepeatsEmpty(schema, path, items, n - 1);
      DuplicatesEmpty(schema, here, x);
      ConcatEmpty(ItemRepeats(schema, path, items, n - 1), DuplicatesIn(schema, here, x));
      assert ItemRepeats(schema, path, items, n) ==
        ItemRepeats(schema, path, items, n - 1) + DuplicatesIn(schema, here, x);
      assert items[..n] == items[..n - 1] + [x];
    }
  }

  lemma {:induction false} FlatIsClean(schema: Schema, items: seq<Json>)
    requires schema.entities == map[]
    ensures ItemsClean(schema, items)
  {
  }

  /** The search for duplicates comes up empty exactly on documents without any. */
  lemma {:induction false} DuplicatesEmpty(schema: Schema, path: Path, j: Json)
    requires WellFormed(schema)
    ensures DuplicatesIn(schema, path, j) == [] <==> NoDuplicates(schema, j)
    decreases schema, 2, 0
  {
    hide IdOf, ItemsOf, ListRepeats, DistinctEntities, Typed, ItemsClean;
    DirectRepeatsEmpty(schema, path, j, |schema.order|);
    NestedRepeatsEmpty(schema, path, j, |schema.nested|);
    assert schema.order[..|schema.order|] == schema.order && schema.nested[..|schema.nested|] == schema.nested;
    NoDuplicatesByList(schema, j);
    ConcatEmpty(DirectRepeats(path, j, schema.order, |schema.order|), NestedRepeats(schema, path, j, |schema.nested|));
  }

  /** Lists that are not descended into have nothing below to repeat. */
  lemma NoDuplicatesByList(schema: Schema, j: Json)
    requires WellFormed(schema)
    ensures NoDuplicates(schema, j) <==>
      && (forall k :: k in schema.order ==> DistinctEntities(ItemsOf(j, k)))
      && (forall k :: k in schema.nested && k in schema.entities ==> ItemsClean(schema.entities[k], ItemsOf(j, k)))
  {
    hide IdOf, ItemsOf, DistinctEntities;
    forall k | k in schema.entities && k !in schema.nested ensures ItemsClean(schema.entities[k], ItemsOf(j, k)) {
      FlatIsClean(schema.entities[k], ItemsOf(j, k));
    }
    assert NoDuplicates(schema, j) <==>
      forall k :: k in schema.entities ==>
          DistinctEntities(ItemsOf(j, k)) && ItemsClean(schema.entities[k], ItemsOf(j, k));
  }

  // ------------------------------------------------------------- theorems

  /** Two documents compare as equivalent exactly when neither holds a duplicate and they are the same up to the
      order of their lists. */
  lemma EquivalentIffSameUpToOrder(schema: Schema, l: Json, r: Json)
    requires WellFormed(schema) && Typed(schema, l) && Typed(schema, r)
    ensures Equivalent(schema, l, r)
            <==> NoDuplicates(schema, l) && NoDuplicates(schema, r) && SameUpToOrder(schema, l, r)
  {
    EquivalentParts(schema, l, r);
    DuplicatesEmpty(schema, Candidate, l);
    DuplicatesEmpty(schema, Candidate, r);
    NormalizedAgree(schema, l, r);
  }

  /** Equivalence splits into two searches for duplicates and equal normal forms. */
  lemma EquivalentParts(schema: Schema, l: Json, r: Json)
    ensures Equivalent(schema, l, r) <==>
      DuplicatesIn(schema, Candidate, l) == [] && DuplicatesIn(schema, Candidate, r) == []
          && Normalized(schema, l) == Normalized(schema, r)
  {
    DiffEmptyIffEqual(Candidate, Normalized(schema, l), Normalized(schema, r));
  }

  /** Comparison is symmetric and transitive on all documents. */
  lemma EquivalenceSymmetricTransitive(schema: Schema, a: Json, b: Json, c: Json)
    ensures Equivalent(schema, a, b) <==> Equivalent(schema, b, a)
    ensures Equivalent(schema, a, b) && Equivalent(schema, b, c) ==> Equivalent(schema, a, c)
  {
    EquivalentParts(schema, a, b);
    EquivalentParts(schema, b, a);
    EquivalentParts(schema, b, c);
    EquivalentParts(schema, a, c);
  }

  /** A document is equivalent to itself exactly when it holds no duplicate. */
  lemma ReflexiveIffNoDuplicates(schema: Schema, j: Json)
    requires WellFormed(schema)
    ensures Equivalent(schema, j, j) <==> NoDuplicates(schema, j)
  {
    EquivalentParts(schema, j, j);
    DuplicatesEmpty(schema, Candidate, j);
  }
}

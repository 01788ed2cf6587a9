/**
 Semantic comparison of two candidate documents: entity lists are compared by
 identity, lists of references as sets, everything else exactly.
 */
module CandidateParity {
  import opened KeySets
  import opened Text

  datatype Json =
    | Null
    | Bool(b: bool)
    | Num(n: real)
    | Str(s: string)
    | Arr(items: seq<Json>)
    | Obj(fields: map<string, Json>)

  datatype Kind = ExtraEntity | MissingEntity | OrderedLengthMismatch | ValueMismatch | DuplicateIdentity

  /** Where in a document a difference lies. */
  datatype Path = Candidate | Field(of: Path, name: string) | Item(of: Path, index: nat) | Entity(of: Path, id: string)

  datatype Difference = Difference(path: Path, kind: Kind)

  // ---------------------------------------------------------- difference

  predicate ScalarEqual(l: Json, r: Json) {
    l == r && !l.Arr? && !l.Obj?
  }

  ghost function Diff(path: Path, l: Json, r: Json): seq<Difference>
    decreases l, 2, 0
  {
    if ScalarEqual(l, r) then []
    else if l.Obj? && r.Obj? then AllKeys(path, l, r, SortedKeys(l.fields.Keys + r.fields.Keys))
    else if l.Arr? && r.Arr?
        then LengthDiff(path, l, r) + DiffItems(path, l, r, if |r.items| < |l.items| then |r.items| else |l.items|)
    else [Difference(path, ValueMismatch)]
  }

  ghost function AllKeys(path: Path, l: Json, r: Json, keys: seq<string>): seq<Difference>
    requires l.Obj? && r.Obj?
    decreases l, 1, |keys| + 1
  {
    DiffKeys(path, l, r, keys, |keys|)
  }

  /** The differences under the first n keys. */
  ghost function DiffKeys(path: Path, l: Json, r: Json, keys: seq<string>, n: nat): seq<Difference>
    requires l.Obj? && r.Obj? && n <= |keys|
    decreases l, 1, n
  {
    if n == 0 then [] else DiffKeys(path, l, r, keys, n - 1) + DiffField(path, l, r, keys[n - 1])
  }

  ghost function DiffField(path: Path, l: Json, r: Json, k: string): seq<Difference>
    requires l.Obj? && r.Obj?
    decreases l, 0, 0
  {
    if k !in l.fields then [Difference(Field(path, k), ExtraEntity)]
    else if k !in r.fields then [Difference(Field(path, k), MissingEntity)]
    else Diff(Field(path, k), l.fields[k], r.fields[k])
  }

  function LengthDiff(path: Path, l: Json, r: Json): seq<Difference>
    requires l.Arr? && r.Arr?
  {
    if |l.items| != |r.items| then [Difference(path, OrderedLengthMismatch)] else []
  }

  /** The differences of the first n items. */
  ghost function DiffItems(path: Path, l: Json, r: Json, n: nat): seq<Difference>
    requires l.Arr? && r.Arr? && n <= |l.items| && n <= |r.items|
    decreases l, 1, n
  {
    if n == 0 then [] else DiffItems(path, l, r, n - 1) + Diff(Item(path, n - 1), l.items[n - 1], r.items[n - 1])
  }

  /** The difference is empty exactly for equal trees. */
  lemma {:induction false} DiffEmptyIffEqual(path: Path, l: Json, r: Json)
    ensures Diff(path, l, r) == [] <==> l == r
    decreases l, 3, 0
  {
    if l.Obj? && r.Obj? { DiffObjectsEmpty(path, l, r); }
    if l.Arr? && r.Arr? { DiffArraysEmpty(path, l, r); }
  }

  lemma {:induction false} DiffObjectsEmpty(path: Path, l: Json, r: Json)
    requires l.Obj? && r.Obj?
    ensures Diff(path, l, r) == [] <==> l == r
    decreases l, 2, 0
  {
    var keys := SortedKeys(l.fields.Keys + r.fields.Keys);
    DiffKeysEmpty(path, l, r, keys, |keys|);
    assert keys[..|keys|] == keys;
    EqualFields(l, r);
  }

  lemma {:induction false} DiffArraysEmpty(path: Path, l: Json, r: Json)
    requires l.Arr? && r.Arr?
    ensures Diff(path, l, r) == [] <==> l == r
    decreases l, 2, 0
  {
    var n := if |r.items| < |l.items| then |r.items| else |l.items|;
    DiffItemsEmpty(path, l, r, n);
    assert l.items[..|l.items|] == l.items && r.items[..|r.items|] == r.items;
  }

  lemma EqualFields(l: Json, r: Json)
    requires l.Obj? && r.Obj?
    ensures l == r <==> forall k :: k in SortedKeys(l.fields.Keys + r.fields.Keys) ==>
                          k in l.fields && k in r.fields && l.fields[k] == r.fields[k]
  {
    if forall k ::
        k in SortedKeys(l.fields.Keys + r.fields.Keys) ==>
            k in l.fields && k in r.fields && l.fields[k] == r.fields[k] {
      assert forall k :: k in l.fields || k in r.fields ==> k in SortedKeys(l.fields.Keys + r.fields.Keys);
      assert l.fields == r.fields;
    }
  }

  lemma {:induction false} DiffKeysEmpty(path: Path, l: Json, r: Json, keys: seq<string>, n: nat)
    requires l.Obj? && r.Obj? && n <= |keys|
    ensures DiffKeys(path, l, r, keys, n) == [] <==>
      forall k :: k in keys[..n] ==> k in l.fields && k in r.fields && l.fields[k] == r.fields[k]
    decreases l, 1, n
  {
    if n > 0 {
      var k := keys[n - 1];
      if k in l.fields && k in r.fields { DiffEmptyIffEqual(Field(path, k), l.fields[k], r.fields[k]); }
      DiffKeysEmpty(path, l, r, keys, n - 1);
      assert keys[..n] == keys[..n - 1] + [k];
    }
  }

  lemma {:induction false} DiffItemsEmpty(path: Path, l: Json, r: Json, n: nat)
    requires l.Arr? && r.Arr? && n <= |l.items| && n <= |r.items|
    ensures DiffItems(path, l, r, n) == [] <==> l.items[..n] == r.items[..n]
    decreases l, 1, n
  {
    hide ScalarEqual, AllKeys, LengthDiff;
    if n > 0 {
      DiffEmptyIffEqual(Item(path, n - 1), l.items[n - 1], r.items[n - 1]);
      DiffItemsEmpty(path, l, r, n - 1);
      assert l.items[..n] == l.items[..n - 1] + [l.items[n - 1]] && r.items[..n] == r.items[..n - 1] + [r.items[n - 1]];
    }
  }

  // ------------------------------------------------ what a difference means

  datatype Step = Key(name: string) | Position(index: nat)

  function Along(path: Path, steps: seq<Step>): Path
    decreases |steps|
  {
    if steps == [] then path else
      match steps[0]
      case Key(k) => Along(Field(path, k), steps[1..])
      case Position(i) => Along(Item(path, i), steps[1..])
  }

  /** Two trees differ where some steps lead in both of them, and the kind says what is different there. */
  ghost predicate DifferAt(l: Json, r: Json, steps: seq<Step>, kind: Kind)
    decreases |steps|
  {
    if steps == [] then
      match kind
      case OrderedLengthMismatch => l.Arr? && r.Arr? && |l.items| != |r.items|
      case ValueMismatch => l != r && !(l.Arr? && r.Arr?) && !(l.Obj? && r.Obj?)
      case _ => false
    else
      match steps[0]
      case Position(i) =>
        l.Arr? && r.Arr? && i < |l.items| && i < |r.items| && DifferAt(l.items[i], r.items[i], steps[1..], kind)
      case Key(k) =>
        l.Obj? && r.Obj? &&
        if k in l.fields && k in r.fields then DifferAt(l.fields[k], r.fields[k], steps[1..], kind)
        else |steps| == 1 && ((kind.MissingEntity? && k in l.fields) || (kind.ExtraEntity? && k in r.fields))
  }

  /** Every place where the trees differ is reported, as what it is. */
  lemma {:induction false} ReportsDifference(path: Path, l: Json, r: Json, steps: seq<Step>, kind: Kind)
    requires DifferAt(l, r, steps, kind)
    ensures Difference(Along(path, steps), kind) in Diff(path, l, r)
    decreases |steps|
  {
    if steps != [] {
      match steps[0]
      case Key(k) =>
        var keys := SortedKeys(l.fields.Keys + r.fields.Keys);
        if k in l.fields && k in r.fields {
          ReportsDifference(Field(path, k), l.fields[k], r.fields[k], steps[1..], kind);
        }
        assert Difference(Along(Field(path, k), steps[1..]), kind) in DiffField(path, l, r, k);
        var i :| 0 <= i < |keys| && keys[i] == k;
        FieldReported(path, l, r, keys, |keys|, i);
        assert Diff(path, l, r) == AllKeys(path, l, r, keys);
      case Position(i) =>
        ReportsDifference(Item(path, i), l.items[i], r.items[i], steps[1..], kind);
        ItemReported(path, l, r, if |r.items| < |l.items| then |r.items| else |l.items|, i);
    }
  }

  lemma {:induction false} FieldReported(path: Path, l: Json, r: Json, keys: seq<string>, n: nat, i: nat)
    requires l.Obj? && r.Obj? && i < n <= |keys|
    ensures forall d :: d in DiffField(path, l, r, keys[i]) ==> d in DiffKeys(path, l, r, keys, n)
  {
    if i < n - 1 { FieldReported(path, l, r, keys, n - 1, i); }
  }

  lemma {:induction false} ItemReported(path: Path, l: Json, r: Json, n: nat, i: nat)
    requires l.Arr? && r.Arr? && i < n <= |l.items| && n <= |r.items|
    ensures forall d :: d in Diff(Item(path, i), l.items[i], r.items[i]) ==> d in DiffItems(path, l, r, n)
  {
    if i < n - 1 { ItemReported(path, l, r, n - 1, i); }
  }

  /** Every reported difference is one. */
  lemma {:induction false} ReportedDiffers(path: Path, l: Json, r: Json, d: Difference) returns (steps: seq<Step>)
    requires d in Diff(path, l, r)
    ensures d.path == Along(path, steps) && DifferAt(l, r, steps, d.kind)
    decreases l, 2, 0
  {
    steps := [];
    if l.Obj? && r.Obj? {
      var keys := SortedKeys(l.fields.Keys + r.fields.Keys);
      steps := ReportedUnderKeys(path, l, r, keys, |keys|, d);
    } else if l.Arr? && r.Arr? && d !in LengthDiff(path, l, r) {
      steps := ReportedInItems(path, l, r, if |r.items| < |l.items| then |r.items| else |l.items|, d);
    }
  }

  lemma {:induction false} ReportedUnderKeys(path: Path, l: Json, r: Json, keys: seq<string>, n: nat, d: Difference)
    returns (steps: seq<Step>)
    requires l.Obj? && r.Obj? && n <= |keys| && d in DiffKeys(path, l, r, keys, n)
    requires forall k :: k in keys ==> k in l.fields || k in r.fields
    ensures d.path == Along(path, steps) && DifferAt(l, r, steps, d.kind)
    decreases l, 1, n
  {
    var k := keys[n - 1];
    if d !in DiffField(path, l, r, k) {
      steps := ReportedUnderKeys(path, l, r, keys, n - 1, d);
    } else if k in l.fields && k in r.fields {
      var rest := ReportedDiffers(Field(path, k), l.fields[k], r.fields[k], d);
      steps := [Key(k)] + rest;
      assert steps[1..] == rest;
    } else {
      steps := [Key(k)];
    }
  }

  lemma {:induction false} ReportedInItems(path: Path, l: Json, r: Json, n: nat, d: Difference)
    returns (steps: seq<Step>)
    requires l.Arr? && r.Arr? && n <= |l.items| && n <= |r.items| && d in DiffItems(path, l, r, n)
    ensures d.path == Along(path, steps) && DifferAt(l, r, steps, d.kind)
    decreases l, 1, n
  {
    if d in DiffItems(path, l, r, n - 1) {
      steps := ReportedInItems(path, l, r, n - 1, d);
    } else {
      var rest := ReportedDiffers(Item(path, n - 1), l.items[n - 1], r.items[n - 1], d);
      steps := [Position(n - 1)] + rest;
      assert steps[1..] == rest;
    }
  }

  ghost predicate DifferSomewhere(path: Path, l: Json, r: Json, d: Difference) {
    exists steps :: d.path == Along(path, steps) && DifferAt(l, r, steps, d.kind)
  }

  /** The difference of two trees holds exactly the places where they differ, each with what is different there. */
  lemma DiffMeaning(path: Path, l: Json, r: Json, d: Difference)
    ensures d in Diff(path, l, r) <==> DifferSomewhere(path, l, r, d)
  {
    hide Diff, DifferAt, Along;
    if d in Diff(path, l, r) {
      var steps := ReportedDiffers(path, l, r, d);
    }
    if DifferSomewhere(path, l, r, d) {
      var steps :| d.path == Along(path, steps) && DifferAt(l, r, steps, d.kind);
      ReportsDifference(path, l, r, steps, d.kind);
    }
  }

  /** The differences found so far, shared by the whole comparison. */
  class DifferenceLog {
    var items: seq<Difference>

    constructor ()
      ensures items == []
    {
      items := [];
    }

    method Add(d: Difference)
      modifies this
      ensures items == old(items) + [d]
    {
      items := items + [d];
    }

    method DiffJson(path: Path, l: Json, r: Json)
      modifies this
      ensures items == old(items) + Diff(path, l, r)
      decreases l, 2
    {
      if ScalarEqual(l, r) { return; }
      if l.Obj? && r.Obj? {
        var keys := CollectKeys(l.fields.Keys + r.fields.Keys);
        DiffObjects(path, l, r, keys);
      } else if l.Arr? && r.Arr? {
        DiffArrays(path, l, r);
      } else {
        Add(Difference(path, ValueMismatch));
      }
    }

    method DiffObjects(path: Path, l: Json, r: Json, keys: seq<string>)
      requires l.Obj? && r.Obj?
      modifies this
      ensures items == old(items) + AllKeys(path, l, r, keys)
      decreases l, 1
    {
      for i := 0 to |keys|
        invariant items == old(items) + DiffKeys(path, l, r, keys, i)
      {
        DiffKey(path, l, r, keys[i]);
      }
    }

    method DiffKey(path: Path, l: Json, r: Json, k: string)
      requires l.Obj? && r.Obj?
      modifies this
      ensures items == old(items) + DiffField(path, l, r, k)
      decreases l, 0
    {
      if k !in l.fields {
        Add(Difference(Field(path, k), ExtraEntity));
      } else if k !in r.fields {
        Add(Difference(Field(path, k), MissingEntity));
      } else {
        DiffJson(Field(path, k), l.fields[k], r.fields[k]);
      }
    }

    method DiffArrays(path: Path, l: Json, r: Json)
      requires l.Arr? && r.Arr?
      modifies this
      ensures items == old(items) + (LengthDiff(path, l, r) + DiffItems(path, l, r, if |r.items| < |l.items|
          then |r.items| else |l.items|))
      decreases l, 1
    {
      ghost var start := items;
      if |l.items| != |r.items| { Add(Difference(path, OrderedLengthMismatch)); }
      var limit := if |r.items| < |l.items| then |r.items| else |l.items|;
      for i := 0 to limit
        invariant items == start + (LengthDiff(path, l, r) + DiffItems(path, l, r, i))
      {
        DiffJson(Item(path, i), l.items[i], r.items[i]);
      }
    }
  }

  // ------------------------------------------------------- normalisation

  /** Which fields of an object are entity lists and which are lists of references. Order gives
      the order in which duplicates are looked for, nested the fields whose items have lists too. */
  datatype Schema = Schema(entities: map<string, Schema>, references: set<string>, order: seq<string>,
                           nested: seq<string>)

  const LEAF := Schema(map[], {}, [], [])

  /** An item's key: its id, or its position if it has none. */
  function EntityKey(item: Json, index: nat): string {
    if item.Obj? && "id" in item.fields && item.fields["id"].Str? && item.fields["id"].s != "" then item.fields["id"].s
    else "#" + FormatNat(index)
  }

  function ReferenceKey(item: Json, index: nat): string {
    if item.Str? && item.s != "" then item.s else "#" + FormatNat(index)
  }

  /** A list as a map by key; later items displace earlier ones with the same key. */
  function Converted(items: seq<Json>, key: (Json, nat) -> string): map<string, Json> {
    if items == [] then map[] else
      var n := |items| - 1;
      Converted(items[..n], key)[key(items[n], n) := items[n]]
  }

  method ConvertCollection(items: seq<Json>, key: (Json, nat) -> string) returns (converted: map<string, Json>)
    ensures converted == Converted(items, key)
  {
    converted := map[];
    for i := 0 to |items|
      invariant converted == Converted(items[..i], key)
    {
      assert items[..i + 1][..i] == items[..i];
      converted := converted[key(items[i], i) := items[i]];
    }
    assert items[..|items|] == items;
  }

  function Normalized(schema: Schema, j: Json): Json
    decreases schema, 1
  {
    if !j.Obj? then j else Obj(map k | k in j.fields :: NormalizedField(schema, k, j.fields[k]))
  }

  function NormalizedField(schema: Schema, k: string, v: Json): Json
    decreases schema, 0
  {
    if k in schema.entities then
      var m := if v.Arr? then Obj(Converted(v.items, EntityKey)) else v;
      if m.Obj? then Obj(map x | x in m.fields :: Normalized(schema.entities[k], m.fields[x])) else m
    else if k in schema.references && v.Arr? then Obj(Converted(v.items, ReferenceKey))
    else v
  }

  // ---------------------------------------------------------- duplicates

  function IdOf(item: Json): string {
    if item.Obj? && "id" in item.fields && item.fields["id"].Str? then item.fields["id"].s else ""
  }

  function ItemsOf(j: Json, field: string): seq<Json> {
    if j.Obj? && field in j.fields && j.fields[field].Arr? then j.fields[field].items else []
  }

  function Ids(items: seq<Json>): (r: seq<string>)
    ensures |r| == |items| && forall i :: 0 <= i < |items| ==> r[i] == IdOf(items[i])
  {
    seq(|items|, i requires 0 <= i < |items| => IdOf(items[i]))
  }

  /** One difference for each of the first n ids that is not empty and occurred before. */
  function Repeats(path: Path, ids: seq<string>, n: nat): seq<Difference>
    requires n <= |ids|
  {
    if n == 0 then [] else Repeats(path, ids, n - 1) + RepeatAt(path, ids, n - 1)
  }

  function RepeatAt(path: Path, ids: seq<string>, i: nat): seq<Difference>
    requires i < |ids|
  {
    if ids[i] != "" && ids[i] in ids[..i] then [Difference(Entity(path, ids[i]), DuplicateIdentity)] else []
  }

  method CheckIdentities(path: Path, items: seq<Json>, log: DifferenceLog)
    modifies log
    ensures log.items == old(log.items) + Repeats(path, Ids(items), |items|)
  {
    hide IdOf;
    ghost var ids := Ids(items);
    var seen: set<string> := {};
    for i := 0 to |items|
      invariant forall x :: x in seen <==> x in ids[..i]
      invariant log.items == old(log.items) + Repeats(path, ids, i)
    {
      var id := IdOf(items[i]);
      assert ids[..i + 1] == ids[..i] + [id];
      if id == "" || id !in seen {
        seen := seen + {id};
      } else {
        log.Add(Difference(Entity(path, id), DuplicateIdentity));
      }
    }
  }

  /** The repetitions in the first n of the given lists of an object. */
  ghost function DirectRepeats(path: Path, j: Json, fields: seq<string>, n: nat): seq<Difference>
    requires n <= |fields|
  {
    if n == 0 then [] else DirectRepeats(path, j, fields, n - 1) + ListRepeats(path, j, fields[n - 1])
  }

  ghost function ListRepeats(path: Path, j: Json, field: string): seq<Difference> {
    Repeats(Field(path, field), Ids(ItemsOf(j, field)), |ItemsOf(j, field)|)
  }

  /** All duplicate identities of a document: the lists of the object itself, then those of its items. */
  ghost function DuplicatesIn(schema: Schema, path: Path, j: Json): seq<Difference>
    decreases schema, 2, 0
  {
    DirectRepeats(path, j, schema.order, |schema.order|) + NestedRepeats(schema, path, j, |schema.nested|)
  }

  ghost function NestedRepeats(schema: Schema, path: Path, j: Json, n: nat): seq<Difference>
    requires n <= |schema.nested|
    decreases schema, 1, n
  {
    if n == 0 then [] else NestedRepeats(schema, path, j, n - 1) + NestedIn(schema, path, j, schema.nested[n - 1])
  }

  ghost function NestedIn(schema: Schema, path: Path, j: Json, f: string): seq<Difference>
    decreases schema, 0, 0
  {
    if f in schema.entities then ItemRepeats(schema.entities[f], Field(path, f), ItemsOf(j, f), |ItemsOf(j, f)|) else []
  }

  ghost function ItemRepeats(schema: Schema, path: Path, items: seq<Json>, n: nat): seq<Difference>
    requires n <= |items|
    decreases schema, 3, n
  {
    if n == 0 then []
    else ItemRepeats(schema, path, items, n - 1) + DuplicatesIn(schema, Entity(path, IdOf(items[n - 1])), items[n - 1])
  }

  method FindDirectDuplicates(path: Path, j: Json, fields: seq<string>, log: DifferenceLog)
    modifies log
    ensures log.items == old(log.items) + DirectRepeats(path, j, fields, |fields|)
  {
    hide ListRepeats, IdOf;
    for i := 0 to |fields|
      invariant log.items == old(log.items) + DirectRepeats(path, j, fields, i)
    {
      CheckList(path, j, fields[i], log);
    }
  }

  method CheckList(path: Path, j: Json, field: string, log: DifferenceLog)
    modifies log
    ensures log.items == old(log.items) + ListRepeats(path, j, field)
  {
    var items := ItemsOf(j, field);
    CheckIdentities(Field(path, field), items, log);
  }

  method FindDuplicates(schema: Schema, path: Path, j: Json, log: DifferenceLog)
    modifies log
    ensures log.items == old(log.items) + DuplicatesIn(schema, path, j)
    decreases schema, 2
  {
    FindDirectDuplicates(path, j, schema.order, log);
    FindNestedDuplicates(schema, path, j, log);
  }

  method FindNestedDuplicates(schema: Schema, path: Path, j: Json, log: DifferenceLog)
    modifies log
    ensures log.items == old(log.items) + NestedRepeats(schema, path, j, |schema.nested|)
    decreases schema, 1
  {
    for i := 0 to |schema.nested|
      invariant log.items == old(log.items) + NestedRepeats(schema, path, j, i)
    {
      FindInField(schema, path, j, schema.nested[i], log);
    }
  }

  method FindInField(schema: Schema, path: Path, j: Json, f: string, log: DifferenceLog)
    modifies log
    ensures log.items == old(log.items) + NestedIn(schema, path, j, f)
    decreases schema, 0
  {
    if f in schema.entities {
      var items := ItemsOf(j, f);
      FindItemDuplicates(schema.entities[f], Field(path, f), items, log);
    }
  }

  method FindItemDuplicates(schema: Schema, path: Path, items: seq<Json>, log: DifferenceLog)
    modifies log
    ensures log.items == old(log.items) + ItemRepeats(schema, path, items, |items|)
    decreases schema, 3
  {
    hide IdOf, DirectRepeats, NestedRepeats;
    for k := 0 to |items|
      invariant log.items == old(log.items) + ItemRepeats(schema, path, items, k)
    {
      FindDuplicates(schema, Entity(path, IdOf(items[k])), items[k], log);
    }
  }

  // ---------------------------------------------------------- comparison

  ghost function Differences(schema: Schema, l: Json, r: Json): seq<Difference> {
    DuplicatesIn(schema, Candidate, l) + DuplicatesIn(schema, Candidate, r) + Diff(Candidate, Normalized(schema, l),
        Normalized(schema, r))
  }

  ghost predicate Equivalent(schema: Schema, l: Json, r: Json) {
    Differences(schema, l, r) == []
  }

  method DuplicateIdentityDifferences(schema: Schema, j: Json) returns (differences: seq<Difference>)
    ensures differences == DuplicatesIn(schema, Candidate, j)
  {
    var log := new DifferenceLog();
    FindDuplicates(schema, Candidate, j, log);
    return log.items;
  }

  method TreeDifferences(l: Json, r: Json) returns (differences: seq<Difference>)
    ensures differences == Diff(Candidate, l, r)
  {
    var log := new DifferenceLog();
    log.DiffJson(Candidate, l, r);
    return log.items;
  }

  method CompareCandidateSemantic(schema: Schema, source: Json, persisted: Json)
    returns (equivalent: bool, differences: seq<Difference>)
    ensures differences == Differences(schema, source, persisted)
    ensures equivalent <==> Equivalent(schema, source, persisted)
  {
    var left, right := Normalized(schema, source), Normalized(schema, persisted);
    var inSource := DuplicateIdentityDifferences(schema, source);
    var inPersisted := DuplicateIdentityDifferences(schema, persisted);
    var between := TreeDifferences(left, right);
    differences := inSource + inPersisted + between;
    equivalent := |differences| == 0;
  }
}

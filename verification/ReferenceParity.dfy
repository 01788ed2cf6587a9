/** What it means that two lists of references compare as equal. */
module ReferenceParity {
  import opened Results
  import opened CandidateParity
  import opened Text

  /** The key of an entry without a name: its position. */
  function Positional(i: nat): string { "#" + FormatNat(i) }

  lemma PositionalInjective(i: nat, j: nat)
    requires Positional(i) == Positional(j)
    ensures i == j
  {
    assert Positional(i)[1..] == FormatNat(i) && Positional(j)[1..] == FormatNat(j);
    ParseFormatNat(i);
    ParseFormatNat(j);
  }

  predicate Unnamed(x: Json) { !(x.Str? && x.s != "") }

  ghost predicate IsPositional(name: string) { exists i: nat :: name == Positional(i) }

  /** What stands under the position i: the entry there if it has no name, unless an entry from there on has the
      position as its name; failing that, an entry with the position as its name. */
  function Slot(v: seq<Json>, i: nat): Option<Json> {
    var named := Str(Positional(i));
    if i < |v| && Unnamed(v[i]) && named !in v[i..] then Some(v[i])
    else if named in v then Some(named)
    else None
  }

  function Under(m: map<string, Json>, k: string): Option<Json> { if k in m then Some(m[k]) else None }

  lemma SlotNext(v: seq<Json>, i: nat)
    requires v != []
    ensures var n := |v| - 1;
      Slot(v, i) == if ReferenceKey(v[n], n) == Positional(i) then Some(v[n]) else Slot(v[..n], i)
  {
    var n, named := |v| - 1, Str(Positional(i));
    assert v == v[..n] + [v[n]];
    assert i <= n ==> v[i..] == v[..n][i..] + [v[n]];
    if Unnamed(v[n]) && ReferenceKey(v[n], n) == Positional(i) { PositionalInjective(n, i); }
    hide FormatNat;
  }

  lemma {:induction false} SlotConverted(v: seq<Json>, i: nat)
    ensures Under(Converted(v, ReferenceKey), Positional(i)) == Slot(v, i)
  {
    hide Positional;
    if v != [] {
      SlotNext(v, i);
      hide Slot;
      SlotConverted(v[..|v| - 1], i);
    }
  }

  lemma {:induction false} NamedConverted(v: seq<Json>, name: string)
    requires name != "" && !IsPositional(name)
    ensures Under(Converted(v, ReferenceKey), name) == if Str(name) in v then Some(Str(name)) else None
  {
    if v != [] {
      var n := |v| - 1;
      NamedConverted(v[..n], name);
      assert v == v[..n] + [v[n]];
      assert Positional(n) == "#" + FormatNat(n);
    }
  }

  lemma {:induction false} NoEmptyKey(v: seq<Json>)
    ensures "" !in Converted(v, ReferenceKey)
  {
    if v != [] { NoEmptyKey(v[..|v| - 1]); }
  }

  /** The same names, and the same under every position. */
  ghost predicate SameReferences(v: seq<Json>, w: seq<Json>) {
    && (forall name :: name != "" && !IsPositional(name) ==> (Str(name) in v <==> Str(name) in w))
    && forall i: nat :: Slot(v, i) == Slot(w, i)
  }

  /** Lists of references have equal normal forms exactly if they hold the same names and the same under every
      position. */
  lemma ReferencesAgree(v: seq<Json>, w: seq<Json>)
    ensures Converted(v, ReferenceKey) == Converted(w, ReferenceKey) <==> SameReferences(v, w)
  {
    hide Slot, Converted, Positional;
    var a, b := Converted(v, ReferenceKey), Converted(w, ReferenceKey);
    forall i: nat ensures Slot(v, i) == Under(a, Positional(i)) && Slot(w, i) == Under(b, Positional(i)) {
      SlotConverted(v, i);
      SlotConverted(w, i);
    }
    forall name | name != "" && !IsPositional(name)
      ensures (Str(name) in v <==> name in a) && (Str(name) in w <==> name in b)
              && (name in a && name in b ==> a[name] == b[name])
    {
      NamedConverted(v, name);
      NamedConverted(w, name);
    }
    if SameReferences(v, w) {
      NoEmptyKey(v);
      NoEmptyKey(w);
      forall k ensures Under(a, k) == Under(b, k) {
        if k != "" && IsPositional(k) {
          var i: nat :| k == Positional(i);
          assert Slot(v, i) == Slot(w, i);
        }
      }
      SameUnder(a, b);
    }
  }

  lemma SameUnder(a: map<string, Json>, b: map<string, Json>)
    requires forall k :: Under(a, k) == Under(b, k)
    ensures a == b
  {
    assert forall k :: k in a <==> Under(a, k).Some?;
    assert forall k :: k in b <==> Under(b, k).Some?;
    forall k | k in a ensures k in b && a[k] == b[k] { assert Under(a, k) == Under(b, k); }
  }

  function UnnamedAt(v: seq<Json>, i: nat): Option<Json> { if i < |v| && Unnamed(v[i]) then Some(v[i]) else None }

  ghost predicate NoPositionalNames(v: seq<Json>) {
    forall i: nat :: Str(Positional(i)) !in v
  }

  /** Without names like #0, #1 and so on: the same named members, in any order and number, and the same entries
      without a name at the same positions. */
  lemma ReferencesAgreeByMembers(v: seq<Json>, w: seq<Json>)
    requires NoPositionalNames(v) && NoPositionalNames(w)
    ensures Converted(v, ReferenceKey) == Converted(w, ReferenceKey) <==>
      && (forall name :: name != "" ==> (Str(name) in v <==> Str(name) in w))
      && (forall i: nat :: UnnamedAt(v, i) == UnnamedAt(w, i))
  {
    ReferencesAgree(v, w);
    hide Positional, Converted;
    forall i: nat ensures Slot(v, i) == UnnamedAt(v, i) && Slot(w, i) == UnnamedAt(w, i) {
      assert Str(Positional(i)) !in v && Str(Positional(i)) !in w;
    }
    hide Slot, UnnamedAt;
    if forall i: nat :: UnnamedAt(v, i) == UnnamedAt(w, i) {
      forall i: nat ensures Slot(v, i) == Slot(w, i) { assert UnnamedAt(v, i) == UnnamedAt(w, i); }
    }
    if forall i: nat :: Slot(v, i) == Slot(w, i) {
      forall i: nat ensures UnnamedAt(v, i) == UnnamedAt(w, i) { assert Slot(v, i) == Slot(w, i); }
    }
    forall name | name != "" && IsPositional(name) ensures Str(name) !in v && Str(name) !in w {
      var i: nat :| name == Positional(i);
    }
  }

  /** The order of references matters as soon as one of them is empty. */
  lemma EmptyReferenceIsPositional()
    ensures var v, w := [Str(""), Str("a")], [Str("a"), Str("")];
      multiset(v) == multiset(w) && Converted(v, ReferenceKey) != Converted(w, ReferenceKey)
  {
    var v, w := [Str(""), Str("a")], [Str("a"), Str("")];
    assert multiset(v) == multiset(w);
    assert Positional(0)[0] == '#' && Str(Positional(0)) !in v && Str(Positional(0)) !in w;
    ReferencesAgree(v, w);
    hide Positional;
    assert Slot(v, 0) == Some(Str("")) && Slot(w, 0) == None;
  }

  /** An empty reference disappears behind one that has its position as a name. */
  lemma PositionalNameHidesEmpty()
    ensures var hash := Str(Positional(0));
      Converted([Str(""), hash], ReferenceKey) == Converted([hash], ReferenceKey)
  {
    var hash := Str(Positional(0));
    var v, w := [Str(""), hash], [hash];
    assert v[..1] == [Str("")] && [Str("")][..0] == [] && w[..0] == [];
    assert Converted([Str("")], ReferenceKey) == map[Positional(0) := Str("")];
    assert ReferenceKey(hash, 0) == ReferenceKey(hash, 1) == Positional(0);
  }
}

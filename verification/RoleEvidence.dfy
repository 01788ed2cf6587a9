/**
 Which role families a vacancy is about, decided from its texts alone.

 A text is the sequence of canonical tokens of a string; joining strings with
 spaces concatenates their texts.
 */
module RoleEvidence {
  import opened Sequences

  type Text = seq<string>

  /** A string of the vocabulary or of a profile together with its canonical tokens. */
  datatype Phrase = Phrase(raw: string, text: Text)

  datatype RoleFamily =
    | PythonBackend | WebBackend | AutomationIntegrations | TechSupport | SystemAdmin
    | Frontend | Flutter | OneC | SystemAnalyst

  datatype Strength = NoEvidence | Weak | Strong

  datatype FamilyRule = FamilyRule(
    family: RoleFamily,
    titleAnchors: seq<Phrase>,
    roleTokens: seq<Phrase>,
    specificTokens: seq<Phrase>,
    genericTokens: seq<Phrase>)

  datatype FamilyEvidence = FamilyEvidence(
    family: RoleFamily,
    strength: Strength,
    titleAnchors: seq<Phrase>,
    explicitRoleSignals: seq<Phrase>,
    specificSignals: seq<Phrase>,
    genericSignals: seq<Phrase>)

  datatype VacancyEvidence = VacancyEvidence(
    families: seq<FamilyEvidence>,
    strongFamilies: seq<RoleFamily>,
    specificSignals: seq<string>,
    genericSignals: seq<string>,
    available: bool)

  /** A requirement that reads like an education requirement is never covered by a skill. */
  datatype Requirement = Requirement(phrase: Phrase, educationLike: bool)

  /** Everything routing reads of a vacancy except where the vacancy was found. The last
      two fields are the lower-cased full text and the lower-cased experience and title. */
  datatype VacancyText = VacancyText(
    title: Text,
    professionalRoles: Text,
    requiredSkills: seq<Requirement>,
    keySkills: Text,
    description: Text,
    searchable: string,
    level: string)

  /** Tokens of at least two characters. */
  function Tokens(t: Text): set<string> {
    set x | x in t && |x| >= 2
  }

  predicate OccursAt(phrase: Text, text: Text, start: nat) {
    start + |phrase| <= |text| && text[start..start + |phrase|] == phrase
  }

  predicate Occurs(phrase: Text, text: Text) {
    phrase != [] && exists start: nat | start <= |text| :: OccursAt(phrase, text, start)
  }

  method ContainsCanonicalPhrase(have: Text, want: Text) returns (found: bool)
    ensures found <==> Occurs(want, have)
  {
    if |want| == 0 { return false; }
    var start: nat := 0;
    while start + |want| <= |have|
      invariant start <= |have| + 1
      invariant forall s: nat :: s < start ==> !OccursAt(want, have, s)
    {
      var matches := true;
      for index := 0 to |want|
        invariant matches ==> forall k :: 0 <= k < index ==> have[start + k] == want[k]
        invariant !matches ==> !OccursAt(want, have, start)
      {
        if have[start + index] != want[index] {
          assert have[start..start + |want|][index] != want[index];
          matches := false;
          break;
        }
      }
      if matches {
        assert OccursAt(want, have, start);
        return true;
      }
      start := start + 1;
    }
    return false;
  }

  function RequirementTexts(rs: seq<Requirement>): Text {
    if rs == [] then [] else rs[0].phrase.text + RequirementTexts(rs[1..])
  }

  function TitleText(v: VacancyText): Text { v.title + v.professionalRoles }

  function StructuredText(v: VacancyText): Text {
    v.title + v.professionalRoles + RequirementTexts(v.requiredSkills) + v.keySkills
  }

  /** Professional roles are read as part of the title, and both before the rest of the structured fields. */
  lemma RolesReadAsTitle(v: VacancyText)
    ensures var w := v.(title := v.title + v.professionalRoles, professionalRoles := []);
      TitleText(w) == TitleText(v) && StructuredText(w) == StructuredText(v)
    ensures TitleText(v) <= StructuredText(v)
  {
  }

  /** Add a phrase unless one with the same token set is there. */
  function AddPhrase(values: seq<Phrase>, p: Phrase): seq<Phrase> {
    if exists q :: q in values && Tokens(q.text) == Tokens(p.text) then values else values + [p]
  }

  /** Add the strings not there yet, skipping empty ones. */
  function AddStrings(values: seq<string>, additions: seq<string>): (r: seq<string>)
    ensures values <= r
    ensures forall x :: x in r <==> x in values || (x in additions && x != "")
    decreases |additions|
  {
    if additions == [] then values else
      var x := additions[0];
      AddStrings(if x == "" || x in values then values else values + [x], additions[1..])
  }

  function Raws(ps: seq<Phrase>): seq<string> {
    Map((p: Phrase) => p.raw, ps)
  }

  /** The phrases of a rule that satisfy hit, one per token set, in rule order. */
  function Hits(ps: seq<Phrase>, hit: Phrase -> bool): seq<Phrase> {
    if ps == [] then [] else
      var before := Hits(ps[..|ps| - 1], hit);
      var last := ps[|ps| - 1];
      if hit(last) then AddPhrase(before, last) else before
  }

  function StrengthOf(anchors: nat, explicitSignals: nat, specific: nat): Strength {
    if anchors > 0 || explicitSignals >= 2 || (explicitSignals > 0 && specific > 0) then Strong
    else if explicitSignals > 0 || specific >= 2 then Weak
    else NoEvidence
  }

  function InTitle(v: VacancyText): Phrase -> bool { (p: Phrase) => Occurs(p.text, TitleText(v)) }

  function TitleToken(v: VacancyText): Phrase -> bool { (p: Phrase) => p.raw in Tokens(TitleText(v)) }

  /** A token of the structured fields or of any text, which is the same as one of any text. */
  function AnyToken(v: VacancyText): Phrase -> bool {
    (p: Phrase) => p.raw in Tokens(StructuredText(v) + v.description)
  }

  function EvidenceFor(rule: FamilyRule, v: VacancyText): FamilyEvidence {
    var anchors := Hits(rule.titleAnchors, InTitle(v));
    var explicitSignals := Hits(rule.roleTokens, TitleToken(v));
    var specific := Hits(rule.specificTokens, AnyToken(v));
    var generic := Hits(rule.genericTokens, AnyToken(v));
    FamilyEvidence(rule.family, StrengthOf(|anchors|, |explicitSignals|, |specific|), anchors, explicitSignals,
                   specific, generic)
  }

  /** Evidence for the families that show any, in rule order. */
  function Found(rules: seq<FamilyRule>, v: VacancyText): seq<FamilyEvidence> {
    if rules == [] then [] else
      var before := Found(rules[..|rules| - 1], v);
      var e := EvidenceFor(rules[|rules| - 1], v);
      if e.strength.NoEvidence? then before else before + [e]
  }

  predicate IsStrong(e: FamilyEvidence) { e.strength.Strong? }

  /** The families with strong evidence, in order. */
  function StrongOf(es: seq<FamilyEvidence>): seq<RoleFamily> {
    if es == [] then [] else (if IsStrong(es[0]) then [es[0].family] else []) + StrongOf(es[1..])
  }

  /** Strong Python evidence displaces strong generic web-backend evidence. */
  predicate NotDisplaced(e: FamilyEvidence) {
    e.family != WebBackend || !e.strength.Strong?
  }

  predicate NotWeb(f: RoleFamily) { f != WebBackend }

  function Families(rules: seq<FamilyRule>, v: VacancyText): seq<FamilyEvidence> {
    var found := Found(rules, v);
    if PythonBackend in StrongOf(found) then Filter(NotDisplaced, found) else found
  }

  function Signals(es: seq<FamilyEvidence>, of: FamilyEvidence -> seq<Phrase>): seq<string> {
    if es == [] then [] else AddStrings(Signals(es[..|es| - 1], of), Raws(of(es[|es| - 1])))
  }

  function Specific(e: FamilyEvidence): seq<Phrase> { e.specificSignals }

  function Generic(e: FamilyEvidence): seq<Phrase> { e.genericSignals }

  function Evidence(rules: seq<FamilyRule>, v: VacancyText): VacancyEvidence {
    var found := Found(rules, v);
    var families := Families(rules, v);
    var generic := Signals(found, Generic);
    VacancyEvidence(families, StrongOf(families), Signals(found, Specific), generic, |families| > 0 || |generic| > 0)
  }

  // --------------------------------------------------- what evidence means

  ghost function WordsIn(ps: seq<Phrase>): set<set<string>> {
    set p | p in ps :: Tokens(p.text)
  }

  lemma WordsSnoc(ps: seq<Phrase>, p: Phrase)
    ensures WordsIn(ps + [p]) == WordsIn(ps) + {Tokens(p.text)}
  {
    hide Tokens;
    assert forall q :: q in ps + [p] <==> q in ps || q == p;
  }

  lemma AddPhraseWords(values: seq<Phrase>, p: Phrase)
    ensures var all := AddPhrase(values, p);
      && WordsIn(all) == WordsIn(values) + {Tokens(p.text)}
      && (|values| == |WordsIn(values)| ==> |all| == |WordsIn(all)|)
      && forall q :: q in all ==> q in values || q == p
  {
    WordsSnoc(values, p);
    hide Tokens;
  }

  /** Hits are phrases that hit, and every phrase that hits has its words among theirs, which are all different. */
  lemma {:induction false} HitsExactly(ps: seq<Phrase>, hit: Phrase -> bool)
    ensures forall p :: p in Hits(ps, hit) ==> p in ps && hit(p)
    ensures forall p :: p in ps && hit(p) ==> Tokens(p.text) in WordsIn(Hits(ps, hit))
    ensures |Hits(ps, hit)| == |WordsIn(Hits(ps, hit))|
  {
    if ps == [] {
      assert WordsIn(Hits(ps, hit)) == {};
    } else {
      var n := |ps| - 1;
      assert ps == ps[..n] + [ps[n]];
      HitsExactly(ps[..n], hit);
      AddPhraseWords(Hits(ps[..n], hit), ps[n]);
      hide Tokens, AddPhrase, WordsIn;
    }
  }

  ghost predicate OneHits(ps: seq<Phrase>, hit: Phrase -> bool) {
    exists p :: p in ps && hit(p)
  }

  ghost predicate TwoHit(ps: seq<Phrase>, hit: Phrase -> bool) {
    exists p, q :: p in ps && q in ps && hit(p) && hit(q) && Tokens(p.text) != Tokens(q.text)
  }

  lemma HitCounts(ps: seq<Phrase>, hit: Phrase -> bool)
    ensures |Hits(ps, hit)| > 0 <==> OneHits(ps, hit)
    ensures |Hits(ps, hit)| > 1 <==> TwoHit(ps, hit)
  {
    HitsExactly(ps, hit);
    var hits, words := Hits(ps, hit), WordsIn(Hits(ps, hit));
    hide Hits, Tokens;
    if hits != [] { assert hits[0] in hits; }
    if |words| > 1 {
      var x :| x in words;
      OtherWords(words, x);
      var y :| y in words && y != x;
      var p :| p in hits && Tokens(p.text) == x;
      var q :| q in hits && Tokens(q.text) == y;
    }
    if TwoHit(ps, hit) {
      var p, q :| p in ps && q in ps && hit(p) && hit(q) && Tokens(p.text) != Tokens(q.text);
      if words == {Tokens(p.text)} { assert false; }
    }
  }

  lemma OtherWords(words: set<set<string>>, x: set<string>)
    requires x in words && |words| > 1
    ensures exists y :: y in words && y != x
  {
    assert |words - {x}| > 0;
    var y :| y in words - {x};
  }

  /** A family shows for certain by an anchor in the title, by two of its role words there, or by one together with a
      specific word anywhere; and it shows faintly by one role word in the title or by two specific words. */
  lemma StrengthMeans(rule: FamilyRule, v: VacancyText)
    ensures var e := EvidenceFor(rule, v);
      && e.family == rule.family
      && (e.strength.Strong? <==>
            OneHits(rule.titleAnchors, InTitle(v)) || TwoHit(rule.roleTokens, TitleToken(v))
                || (OneHits(rule.roleTokens, TitleToken(v)) && OneHits(rule.specificTokens, AnyToken(v))))
      && (e.strength.NoEvidence? <==>
            !OneHits(rule.titleAnchors, InTitle(v)) && !OneHits(rule.roleTokens, TitleToken(v))
                && !TwoHit(rule.specificTokens, AnyToken(v)))
  {
    HitCounts(rule.titleAnchors, InTitle(v));
    HitCounts(rule.roleTokens, TitleToken(v));
    HitCounts(rule.specificTokens, AnyToken(v));
    hide Hits, OneHits, TwoHit, InTitle, TitleToken, AnyToken;
  }

  lemma {:induction false} FoundExactly(rules: seq<FamilyRule>, v: VacancyText)
    ensures forall e :: e in Found(rules, v) <==>
      !e.strength.NoEvidence? && exists rule :: rule in rules && e == EvidenceFor(rule, v)
  {
    if rules != [] {
      var n := |rules| - 1;
      assert rules == rules[..n] + [rules[n]];
      FoundExactly(rules[..n], v);
      hide EvidenceFor;
    }
  }

  lemma {:induction false} StrongOfExactly(es: seq<FamilyEvidence>)
    ensures forall f :: f in StrongOf(es) <==> exists e :: e in es && e.strength.Strong? && e.family == f
  {
    if es != [] {
      StrongOfExactly(es[1..]);
      assert es == [es[0]] + es[1..];
    }
  }

  /** Some rule shows the family for certain. */
  ghost predicate ShowsStrongly(rules: seq<FamilyRule>, v: VacancyText, f: RoleFamily) {
    exists rule :: rule in rules && rule.family == f && EvidenceFor(rule, v).strength.Strong?
  }

  /** The evidence of a vacancy is that of every rule that finds any, except that Python shown for certain displaces web
      back end shown for certain; what shows for certain is listed; and there is evidence if any rule finds some. */
  lemma EvidenceExactly(rules: seq<FamilyRule>, v: VacancyText)
    ensures forall e :: e in Evidence(rules, v).families <==>
      && !e.strength.NoEvidence?
      && (exists rule :: rule in rules && e == EvidenceFor(rule, v))
      && !(e.family.WebBackend? && e.strength.Strong? && ShowsStrongly(rules, v, PythonBackend))
    ensures forall f :: f in Evidence(rules, v).strongFamilies <==>
      ShowsStrongly(rules, v, f) && !(f.WebBackend? && ShowsStrongly(rules, v, PythonBackend))
    ensures Evidence(rules, v).available <==>
      exists rule :: rule in rules && !EvidenceFor(rule, v).strength.NoEvidence?
  {
    var found := Found(rules, v);
    FoundExactly(rules, v);
    StrongOfExactly(found);
    StrongOfExactly(Families(rules, v));
    StrongShown(rules, v);
    hide Found, StrongOf, EvidenceFor, Signals, Filter;
    NothingSignalled(found);
    SomeFamilyStays(rules, v);
    if found != [] { assert found[0] in found; }
    if Families(rules, v) != [] { assert Families(rules, v)[0] in Families(rules, v); }
  }

  lemma StrongShown(rules: seq<FamilyRule>, v: VacancyText)
    ensures forall f :: f in StrongOf(Found(rules, v)) <==> ShowsStrongly(rules, v, f)
  {
    var found := Found(rules, v);
    FoundExactly(rules, v);
    StrongOfExactly(found);
    hide Found, StrongOf;
    forall rule | rule in rules ensures EvidenceFor(rule, v).family == rule.family {}
    hide EvidenceFor;
    forall rule | rule in rules && EvidenceFor(rule, v).strength.Strong?
      ensures EvidenceFor(rule, v) in found {}
  }

  lemma NothingSignalled(es: seq<FamilyEvidence>)
    ensures es == [] ==> Signals(es, Generic) == []
  {
  }

  lemma SomeFamilyStays(rules: seq<FamilyRule>, v: VacancyText)
    ensures Families(rules, v) == [] <==> Found(rules, v) == []
  {
    var found := Found(rules, v);
    StrongOfExactly(found);
    hide Found, StrongOf;
    if PythonBackend in StrongOf(found) {
      var e :| e in found && e.strength.Strong? && e.family == PythonBackend;
      assert e in Filter(NotDisplaced, found);
    }
  }

  /** Filtering the evidence and filtering the list of strong families agree. */
  lemma {:induction false} DisplacementAgrees(es: seq<FamilyEvidence>)
    ensures StrongOf(Filter(NotDisplaced, es)) == Filter(NotWeb, StrongOf(es))
  {
    if es != [] {
      DisplacementAgrees(es[1..]);
      var e, kept, strong := es[0], Filter(NotDisplaced, es[1..]), StrongOf(es[1..]);
      assert ([e] + kept)[1..] == kept && ([e.family] + strong)[1..] == strong;
      assert Filter(NotDisplaced, es) == if NotDisplaced(e) then [e] + kept else kept;
      assert StrongOf(es) == if IsStrong(e) then [e.family] + strong else strong;
    }
  }

  lemma {:induction false} StrongOfSnoc(es: seq<FamilyEvidence>, e: FamilyEvidence)
    ensures StrongOf(es + [e]) == StrongOf(es) + (if IsStrong(e) then [e.family] else [])
  {
    if es != [] {
      StrongOfSnoc(es[1..], e);
      assert (es + [e])[1..] == es[1..] + [e];
    }
  }

  method CollectHits(ps: seq<Phrase>, hit: Phrase -> bool) returns (hits: seq<Phrase>)
    ensures hits == Hits(ps, hit)
  {
    hits := [];
    for i := 0 to |ps|
      invariant hits == Hits(ps[..i], hit)
    {
      assert ps[..i + 1][..i] == ps[..i];
      if hit(ps[i]) { hits := AddPhrase(hits, ps[i]); }
    }
    assert ps[..|ps|] == ps;
  }

  method GatherEvidence(rule: FamilyRule, v: VacancyText) returns (e: FamilyEvidence)
    ensures e == EvidenceFor(rule, v)
  {
    var anchors: seq<Phrase> := [];
    for k := 0 to |rule.titleAnchors|
      invariant anchors == Hits(rule.titleAnchors[..k], InTitle(v))
    {
      assert rule.titleAnchors[..k + 1][..k] == rule.titleAnchors[..k];
      var found := ContainsCanonicalPhrase(TitleText(v), rule.titleAnchors[k].text);
      if found { anchors := AddPhrase(anchors, rule.titleAnchors[k]); }
    }
    assert rule.titleAnchors[..|rule.titleAnchors|] == rule.titleAnchors;
    var explicitSignals := CollectHits(rule.roleTokens, TitleToken(v));
    var specificSignals := CollectHits(rule.specificTokens, AnyToken(v));
    var genericSignals := CollectHits(rule.genericTokens, AnyToken(v));
    var strength := StrengthOf(|anchors|, |explicitSignals|, |specificSignals|);
    e := FamilyEvidence(rule.family, strength, anchors, explicitSignals, specificSignals, genericSignals);
  }

  /** Filter the evidence over the array it is read from: the kept entries fill the front, the rest stays. */
  method KeepUndisplaced(a: array<FamilyEvidence>) returns (n: nat)
    modifies a
    ensures n <= a.Length && a[..n] == Filter(NotDisplaced, old(a[..])) && a[n..] == old(a[n..])
  {
    hide Filter, NotDisplaced;
    n := 0;
    ghost var all := a[..];
    FilterNone(NotDisplaced, all[..0]);
    for i := 0 to a.Length
      invariant n <= i && a[..n] == Filter(NotDisplaced, all[..i]) && a[n..] == all[n..]
    {
      FilterNext(NotDisplaced, all, i);
      assert a[i] == a[n..][i - n] == all[i];
      if a[i].family != WebBackend || !a[i].strength.Strong? {
        NotDisplacedMeans(all[i]);
        a[n] := a[i];
        n := n + 1;
        assert a[..n] == Filter(NotDisplaced, all[..i]) + [all[i]];
      } else {
        NotDisplacedMeans(all[i]);
      }
    }
    assert all[..a.Length] == all;
  }

  lemma NotDisplacedMeans(e: FamilyEvidence)
    ensures NotDisplaced(e) <==> e.family != WebBackend || !e.strength.Strong?
  {
  }

  method KeepNotWeb(a: array<RoleFamily>) returns (n: nat)
    modifies a
    ensures n <= a.Length && a[..n] == Filter(NotWeb, old(a[..])) && a[n..] == old(a[n..])
  {
    hide Filter;
    n := 0;
    ghost var all := a[..];
    FilterNone(NotWeb, all[..0]);
    for i := 0 to a.Length
      invariant n <= i && a[..n] == Filter(NotWeb, all[..i]) && a[n..] == all[n..]
    {
      FilterNext(NotWeb, all, i);
      assert a[i] == a[n..][i - n] == all[i];
      if a[i] != WebBackend {
        a[n] := a[i];
        n := n + 1;
        assert a[..n] == Filter(NotWeb, all[..i]) + [all[i]];
      }
    }
    assert all[..a.Length] == all;
  }

  lemma FoundStep(rules: seq<FamilyRule>, v: VacancyText, i: nat)
    requires i < |rules|
    ensures Found(rules[..i + 1], v)
         == Found(rules[..i], v) + if EvidenceFor(rules[i], v).strength.NoEvidence? then []
             else [EvidenceFor(rules[i], v)]
  {
    assert rules[..i + 1][..i] == rules[..i];
  }

  lemma SignalsSnoc(es: seq<FamilyEvidence>, e: FamilyEvidence, of: FamilyEvidence -> seq<Phrase>)
    ensures Signals(es + [e], of) == AddStrings(Signals(es, of), Raws(of(e)))
  {
    assert (es + [e])[..|es|] == es;
  }

  /** The first pass: evidence family by family, with the running lists next to it. */
  method CollectEvidence(rules: seq<FamilyRule>, v: VacancyText)
      returns (families: seq<FamilyEvidence>, strong: seq<RoleFamily>, specific: seq<string>, generic: seq<string>)
    ensures families == Found(rules, v) && strong == StrongOf(families)
    ensures specific == Signals(families, Specific) && generic == Signals(families, Generic)
  {
    families, strong, specific, generic := [], [], [], [];
    for i := 0 to |rules|
      invariant families == Found(rules[..i], v) && strong == StrongOf(families)
      invariant specific == Signals(families, Specific) && generic == Signals(families, Generic)
    {
      FoundStep(rules, v, i);
      var e := GatherEvidence(rules[i], v);
      if e.strength.NoEvidence? { continue; }
      StrongOfSnoc(families, e);
      SignalsSnoc(families, e, Specific);
      SignalsSnoc(families, e, Generic);
      families := families + [e];
      specific := AddStrings(specific, Raws(e.specificSignals));
      generic := AddStrings(generic, Raws(e.genericSignals));
      if e.strength.Strong? { strong := strong + [e.family]; }
    }
    assert rules[..|rules|] == rules;
  }

  /** Filter both lists over the arrays that hold them. */
  method DropDisplaced(found: seq<FamilyEvidence>, named: seq<RoleFamily>)
      returns (families: seq<FamilyEvidence>, strong: seq<RoleFamily>)
    ensures families == Filter(NotDisplaced, found) && strong == Filter(NotWeb, named)
  {
    hide Filter, NotDisplaced, NotWeb;
    var evidence := new FamilyEvidence[|found|](i requires 0 <= i < |found| => found[i]);
    var names := new RoleFamily[|named|](i requires 0 <= i < |named| => named[i]);
    assert evidence[..] == found && names[..] == named;
    var kept := KeepUndisplaced(evidence);
    var left := KeepNotWeb(names);
    return evidence[..kept], names[..left];
  }

  method ClassifyVacancyRole(rules: seq<FamilyRule>, v: VacancyText) returns (result: VacancyEvidence)
    ensures result == Evidence(rules, v)
  {
    hide Filter, Found, StrongOf, Signals;
    var families, strong, specific, generic := CollectEvidence(rules, v);
    if PythonBackend in strong {
      DisplacementAgrees(families);
      families, strong := DropDisplaced(families, strong);
    }
    result := VacancyEvidence(families, strong, specific, generic, |families| > 0 || |generic| > 0);
  }
}

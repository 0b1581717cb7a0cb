/** Layered chains: what they read, and what single-pass reference rules are. */
module Layers {
  import opened Sparse

  ghost predicate SameSize(layers: seq<seq<Cell>>) {
    forall k :: 0 <= k < |layers| ==> |layers[k]| == |layers[0]|
  }

  /** First layer that is not a hole wins. */
  ghost function At(layers: seq<seq<Cell>>, i: nat): (c: Cell)
    requires forall k :: 0 <= k < |layers| ==> i < |layers[k]|
    ensures c == Hole <==> forall k :: 0 <= k < |layers| ==> layers[k][i] == Hole
    ensures c != Hole ==> exists k :: 0 <= k < |layers| && layers[k][i] == c && forall j :: 0 <= j < k ==> layers[j][i] == Hole
  {
    if layers == [] then Hole
    else if layers[0][i] != Hole then layers[0][i]
    else At(layers[1..], i)
  }

  ghost function Layered(layers: seq<seq<Cell>>): (r: seq<Cell>)
    requires layers != [] && SameSize(layers)
    ensures |r| == |layers[0]|
  {
    seq(|layers[0]|, i requires 0 <= i < |layers[0]| => At(layers, i))
  }

  lemma LayeredSingle(x: seq<Cell>)
    ensures Layered([x]) == x
  {
    forall i | 0 <= i < |x| ensures Layered([x])[i] == x[i] {
      assert At([x], i) == x[i];
    }
  }

  ghost function Cells(sources: seq<Source>): (r: seq<seq<Cell>>)
    ensures |r| == |sources| && forall k :: 0 <= k < |r| ==> r[k] == sources[k].cells
  {
    seq(|sources|, k requires 0 <= k < |sources| => sources[k].cells)
  }
}

/** Planning and emitting one rewritten chain of a publication. */
module Rewrite {
  import opened Sparse
  import opened Layers

  type Ref = string

  datatype Use = Disk | Image | Memory
  datatype Replacement = Replacement(source: Ref, target: Ref)
  datatype Reduction = Reduction(top: Ref, target: Ref)  // an empty target asks for the flattened one
  datatype Options = Options(replacements: seq<Replacement>, reductions: seq<Reduction>, reduceAny: bool, skipVerify: bool)

  /** What a published object carries; config stands for the image configuration's JSON value, zero for none. */
  const NO_CONFIG: nat := 0
  datatype Object = Object(cells: seq<Cell>, config: nat)
  datatype Opened = Opened(payload: Source, config: nat, force: bool)
  datatype OpenResult = Found(value: Opened) | Missing
  datatype Option<T> = None | Some(value: T)

  function ReplacementOf(rules: seq<Replacement>, raw: Ref): (k: nat)
    ensures k <= |rules| && (k < |rules| ==> rules[k].source == raw)
    ensures forall i :: 0 <= i < k ==> rules[i].source != raw
  {
    if rules == [] then 0
    else
      var k := ReplacementOf(rules[..|rules| - 1], raw);
      if k < |rules| - 1 || rules[|rules| - 1].source == raw then k else |rules|
  }

  function MapRef(o: Options, raw: Ref): Ref {
    if raw == "" || raw == "self" then raw
    else
      var k := ReplacementOf(o.replacements, raw);
      if k < |o.replacements| then o.replacements[k].target else raw
  }

  function ReductionOf(rules: seq<Reduction>, top: Ref): (k: nat)
    ensures k <= |rules| && (k < |rules| ==> rules[k].top == top)
    ensures forall i :: 0 <= i < k ==> rules[i].top != top
  {
    if rules == [] then 0
    else
      var k := ReductionOf(rules[..|rules| - 1], top);
      if k < |rules| - 1 || rules[|rules| - 1].top == top then k else |rules|
  }

  /** None: the chain is kept; otherwise the target the reduction names. */
  function ReductionFor(o: Options, top: Ref, hasLowers: bool): Option<Ref> {
    if o.reduceAny then (if hasLowers then Some("") else None)
    else
      var k := ReductionOf(o.reductions, top);
      if k < |o.reductions| then Some(o.reductions[k].target) else None
  }

  datatype ReduceRule = Any | Selected(rule: Reduction)

  ghost predicate Shares(a: Replacement, b: Replacement) {
    a.source == b.source || a.source == b.target || a.target == b.source || a.target == b.target
  }

  ghost predicate ReplacementsOk(rules: seq<Replacement>) {
    && (forall i :: 0 <= i < |rules| ==> rules[i].source != "" && rules[i].target != "")
    && (forall i, j :: 0 <= i < j < |rules| ==> !Shares(rules[i], rules[j]))
  }

  ghost predicate SameTopDiffers(a: ReduceRule, b: ReduceRule) {
    a.Selected? && b.Selected? && a.rule.top == b.rule.top && a != b
  }

  ghost predicate ReductionsOk(rules: seq<ReduceRule>) {
    && (forall i :: 0 <= i < |rules| && rules[i].Selected? ==> rules[i].rule.top != "")
    && (forall i, j :: 0 <= i < j < |rules| ==> !SameTopDiffers(rules[i], rules[j]))
  }

  /** No reduction names an endpoint of a replacement. */
  ghost predicate KeptApart(replacements: seq<Replacement>, reductions: seq<ReduceRule>) {
    forall x, y :: Selected(x) in reductions && y in replacements ==>
      {x.top, x.target} !! {y.source, y.target}
  }

  /** Which rule lists a publication accepts. */
  ghost predicate Acceptable(replacements: seq<Replacement>, reductions: seq<ReduceRule>) {
    && ReplacementsOk(replacements) && ReductionsOk(reductions) && KeptApart(replacements, reductions)
    && (Any in reductions ==> replacements == [] && forall x :: Selected(x) !in reductions)
  }

  // ----- Rule strings -----

  /** strings.Cut at the first equals sign. */
  function Cut(rule: string): (r: (string, string, bool))
    ensures r.2 ==> rule == r.0 + "=" + r.1 && '=' !in r.0
    ensures !r.2 ==> '=' !in rule && r.0 == rule && r.1 == ""
  {
    if rule == "" then ("", "", false)
    else if rule[0] == '=' then ("", rule[1..], true)
    else var (before, after, found) := Cut(rule[1..]); (rule[..1] + before, after, found)
  }

  /** Joining and cutting give back the parts exactly if the first has no equals sign. */
  lemma {:induction false} CutJoined(before: string, after: string)
    ensures Cut(before + "=" + after) == (before, after, true) <==> '=' !in before
    decreases |before|
  {
    var rule := before + "=" + after;
    if before == "" {
      assert rule[1..] == after;
    } else {
      CutJoined(before[1..], after);
      assert rule[1..] == before[1..] + "=" + after;
      assert rule[..1] + before[1..] == before;
    }
  }

  type Canonical = string -> Option<Ref>

  /** OLD=NEW, both canonical; None is a malformed rule. */
  function ReadReplacement(rule: string, canonical: Canonical): Option<Replacement> {
    var (before, after, found) := Cut(rule);
    if !found || before == "" || after == "" || canonical(before).None? || canonical(after).None? then None
    else Some(Replacement(canonical(before).value, canonical(after).value))
  }

  /** any, A or A=X. */
  function ReadReduction(rule: string, canonical: Canonical): Option<ReduceRule> {
    if rule == "any" then Some(Any)
    else
      var (top, target, found) := Cut(rule);
      if top == "" || (found && target == "") || canonical(top).None? || (found && canonical(target).None?) then None
      else Some(Selected(Reduction(canonical(top).value, if found then canonical(target).value else "")))
  }

  /** The rules that the strings spell. */
  ghost predicate Spell(rules: seq<string>, canonical: Canonical, read: seq<Replacement>) {
    |read| == |rules| && forall i :: 0 <= i < |rules| ==> ReadReplacement(rules[i], canonical) == Some(read[i])
  }

  ghost predicate SpellReductions(rules: seq<string>, canonical: Canonical, read: seq<ReduceRule>) {
    |read| == |rules| && forall i :: 0 <= i < |rules| ==> ReadReduction(rules[i], canonical) == Some(read[i])
  }

  method ReadReplacements(rules: seq<string>, canonical: Canonical) returns (r: Option<seq<Replacement>>)
    ensures r.Some? ==> Spell(rules, canonical, r.value)
    ensures r.None? ==> exists i :: 0 <= i < |rules| && ReadReplacement(rules[i], canonical).None?
  {
    var read := [];
    for n := 0 to |rules|
      invariant Spell(rules[..n], canonical, read)
    {
      var rule := ReadReplacement(rules[n], canonical);
      if rule.None? {
        return None;
      }
      read := read + [rule.value];
    }
    assert rules[..|rules|] == rules;
    r := Some(read);
  }

  method ReadReductions(rules: seq<string>, canonical: Canonical) returns (r: Option<seq<ReduceRule>>)
    ensures r.Some? ==> SpellReductions(rules, canonical, r.value)
    ensures r.None? ==> exists i :: 0 <= i < |rules| && ReadReduction(rules[i], canonical).None?
  {
    var read := [];
    for n := 0 to |rules|
      invariant SpellReductions(rules[..n], canonical, read)
    {
      var rule := ReadReduction(rules[n], canonical);
      if rule.None? {
        return None;
      }
      read := read + [rule.value];
    }
    assert rules[..|rules|] == rules;
    r := Some(read);
  }

  /** ParseRewriteOptions: accepts exactly the strings that spell rules and whose rules are acceptable together. */
  method ParseRewriteOptions(replacements: seq<string>, reductions: seq<string>, skipVerify: bool, canonical: Canonical)
    returns (r: Option<Options>)
    ensures r.Some? <==> exists olds, tops ::
              Spell(replacements, canonical, olds) && SpellReductions(reductions, canonical, tops) && Acceptable(olds, tops)
    ensures r.Some? ==> Spell(replacements, canonical, r.value.replacements) && r.value.skipVerify == skipVerify
    ensures r.Some? ==> (r.value.reduceAny <==> "any" in reductions)
    ensures r.Some? ==> forall x :: x in r.value.reductions <==> exists i :: 0 <= i < |reductions| && ReadReduction(reductions[i], canonical) == Some(Selected(x))
    ensures r.Some? ==> forall i, j :: 0 <= i < j < |r.value.reductions| ==> r.value.reductions[i].top != r.value.reductions[j].top
    ensures r.Some? ==> forall tops :: SpellReductions(reductions, canonical, tops) ==> r.value.reductions == Firsts(tops, |tops|)
    ensures r.Some? && Settles(canonical) ==> Parsed(r.value, canonical)
  {
    var olds := ReadReplacements(replacements, canonical);
    if olds.None? {
      return None;
    }
    var tops := ReadReductions(reductions, canonical);
    if tops.None? {
      return None;
    }
    SpellsOnce(replacements, reductions, canonical, olds.value, tops.value);
    r := CheckRules(olds.value, tops.value, skipVerify);
    if r.Some? {
      ReductionsSpelled(reductions, canonical, tops.value);
      if Settles(canonical) {
        ParserMakesParsed(replacements, reductions, canonical, r.value, tops.value);
      }
    }
  }

  lemma SpellsOnce(replacements: seq<string>, reductions: seq<string>, canonical: Canonical, olds: seq<Replacement>, tops: seq<ReduceRule>)
    requires Spell(replacements, canonical, olds) && SpellReductions(reductions, canonical, tops)
    ensures forall o :: Spell(replacements, canonical, o) ==> o == olds
    ensures forall t :: SpellReductions(reductions, canonical, t) ==> t == tops
  {
  }

  lemma ReductionsSpelled(reductions: seq<string>, canonical: Canonical, tops: seq<ReduceRule>)
    requires SpellReductions(reductions, canonical, tops)
    ensures Any in tops <==> "any" in reductions
    ensures forall x :: Selected(x) in tops <==> exists i :: 0 <= i < |reductions| && ReadReduction(reductions[i], canonical) == Some(Selected(x))
  {
    assert forall i :: 0 <= i < |reductions| ==> (tops[i] == Any <==> reductions[i] == "any");
  }

  /** The rules, cut and canonicalized, against each other. */
  method CheckRules(replacements: seq<Replacement>, reductions: seq<ReduceRule>, skipVerify: bool)
    returns (r: Option<Options>)
    ensures r.Some? <==> Acceptable(replacements, reductions)
    ensures r.Some? ==>
              && r.value.replacements == replacements && r.value.skipVerify == skipVerify
              && (r.value.reduceAny <==> Any in reductions)
              && r.value.reductions == Firsts(reductions, |reductions|)
              && (forall x :: x in r.value.reductions <==> Selected(x) in reductions)
              && (forall i, j :: 0 <= i < j < |r.value.reductions| ==> r.value.reductions[i].top != r.value.reductions[j].top)
  {
    var ok, endpoints := ParseReplacements(replacements);
    if !ok {
      return None;
    }
    var any, kept;
    ok, any, kept := ParseReductions(reductions);
    if !ok {
      return None;
    }
    for i := 0 to |kept|
      invariant forall k :: 0 <= k < i ==> kept[k].top !in endpoints && kept[k].target !in endpoints
    {
      if kept[i].top in endpoints || kept[i].target in endpoints {
        assert kept[i] in kept;
        return None;
      }
    }
    if any && (replacements != [] || kept != []) {
      assert kept != [] ==> kept[0] in kept;
      return None;
    }
    return Some(Options(replacements, kept, any, skipVerify));
  }

  // ----- Options rendered and read again -----

  function RenderReplacement(r: Replacement): string { r.source + "=" + r.target }

  function RenderReduction(r: Reduction): string { if r.target == "" then r.top else r.top + "=" + r.target }

  /** The rules the options stand for. */
  function RulesOf(o: Options): (rules: seq<ReduceRule>)
    ensures forall x :: x in o.reductions ==> Selected(x) in rules
    ensures Any in rules <==> o.reduceAny
  {
    var selected := seq(|o.reductions|, i requires 0 <= i < |o.reductions| => Selected(o.reductions[i]));
    assert forall i :: 0 <= i < |o.reductions| ==> selected[i] == Selected(o.reductions[i]);
    selected + if o.reduceAny then [Any] else []
  }

  /** Options as the parser makes them: canonical references and acceptable rules, no selector twice. */
  ghost predicate Parsed(o: Options, canonical: Canonical) {
    && Acceptable(o.replacements, RulesOf(o))
    && (forall i, j :: 0 <= i < j < |o.reductions| ==> o.reductions[i].top != o.reductions[j].top)
    && (forall i :: 0 <= i < |o.replacements| ==> Fixed(canonical, o.replacements[i].source) && Fixed(canonical, o.replacements[i].target))
    && (forall i :: 0 <= i < |o.reductions| ==>
          Fixed(canonical, o.reductions[i].top) && (o.reductions[i].target != "" ==> Fixed(canonical, o.reductions[i].target)))
  }

  predicate Fixed(canonical: Canonical, ref: Ref) { canonical(ref) == Some(ref) }

  /** Canonical spelling adds no equals sign. */
  ghost predicate AddsNoEquals(canonical: Canonical) {
    forall raw :: canonical(raw).Some? && '=' !in raw ==> '=' !in canonical(raw).value
  }

  predicate ReplacementRenderable(r: Replacement) { '=' !in r.source }

  predicate ReductionRenderable(r: Reduction) { '=' !in r.top && (r.target == "" ==> r.top != "any") }

  ghost predicate Renderable(o: Options) {
    && (forall i :: 0 <= i < |o.replacements| ==> ReplacementRenderable(o.replacements[i]))
    && (forall i :: 0 <= i < |o.reductions| ==> ReductionRenderable(o.reductions[i]))
  }

  lemma ReplacementReadBack(r: Replacement, canonical: Canonical)
    requires r.source != "" && r.target != "" && Fixed(canonical, r.source) && Fixed(canonical, r.target)
    ensures ReplacementRenderable(r) ==> ReadReplacement(RenderReplacement(r), canonical) == Some(r)
    ensures AddsNoEquals(canonical) && ReadReplacement(RenderReplacement(r), canonical) == Some(r) ==> ReplacementRenderable(r)
  {
    CutJoined(r.source, r.target);
  }

  lemma ReductionReadBack(r: Reduction, canonical: Canonical)
    requires r.top != "" && Fixed(canonical, r.top) && (r.target != "" ==> Fixed(canonical, r.target))
    ensures ReductionRenderable(r) ==> ReadReduction(RenderReduction(r), canonical) == Some(Selected(r))
    ensures AddsNoEquals(canonical) && ReadReduction(RenderReduction(r), canonical) == Some(Selected(r)) ==> ReductionRenderable(r)
  {
    if r.target != "" {
      CutJoined(r.top, r.target);
      assert '=' in RenderReduction(r) by {
        assert RenderReduction(r)[|r.top|] == '=';
      }
    }
  }

  lemma {:induction false} FirstsOfDistinct(rs: seq<Reduction>, rules: seq<ReduceRule>, n: nat)
    requires n <= |rs| <= |rules| && forall i :: 0 <= i < |rs| ==> rules[i] == Selected(rs[i])
    requires forall i, j :: 0 <= i < j < |rs| ==> rs[i].top != rs[j].top
    ensures Firsts(rules, n) == rs[..n]
  {
    if n == 0 {
    } else {
      FirstsOfDistinct(rs, rules, n - 1);
      assert rs[..n] == rs[..n - 1] + [rs[n - 1]];
    }
  }

  /** If nothing was dropped, the rules are the reductions in order. */
  lemma {:induction false} FirstsKeepAll(rules: seq<ReduceRule>, n: nat)
    requires n <= |rules|
    ensures |Firsts(rules, n)| <= n
    ensures |Firsts(rules, n)| == n ==> forall i :: 0 <= i < n ==> rules[i] == Selected(Firsts(rules, n)[i])
  {
    if n == 0 {
    } else {
      FirstsKeepAll(rules, n - 1);
    }
  }

  lemma FirstsOfRules(o: Options)
    requires forall i, j :: 0 <= i < j < |o.reductions| ==> o.reductions[i].top != o.reductions[j].top
    ensures Firsts(RulesOf(o), |RulesOf(o)|) == o.reductions
  {
    FirstsOfDistinct(o.reductions, RulesOf(o), |o.reductions|);
  }

  /** Canonical spelling is canonical, and never empty. */
  ghost predicate Settles(canonical: Canonical) {
    forall raw :: canonical(raw).Some? ==> canonical(raw).value != "" && Fixed(canonical, canonical(raw).value)
  }

  /** A reduction read from a string has canonical references. */
  lemma ReadIsFixed(rule: string, canonical: Canonical, x: Reduction)
    requires Settles(canonical) && ReadReduction(rule, canonical) == Some(Selected(x))
    ensures x.top != "" && Fixed(canonical, x.top) && (x.target != "" ==> Fixed(canonical, x.target))
  {
  }

  lemma ReductionsAreFixed(reductions: seq<string>, canonical: Canonical, tops: seq<ReduceRule>, x: Reduction)
    requires Settles(canonical) && SpellReductions(reductions, canonical, tops) && x in Firsts(tops, |tops|)
    ensures Selected(x) in tops && x.top != "" && Fixed(canonical, x.top) && (x.target != "" ==> Fixed(canonical, x.target))
  {
    FirstsMembers(tops, |tops|, x);
    var k :| 0 <= k < |tops| && tops[k] == Selected(x);
    ReadIsFixed(reductions[k], canonical, x);
  }

  /** What the parser makes of acceptable rules that strings spell. */
  lemma ParserMakesParsed(replacements: seq<string>, reductions: seq<string>, canonical: Canonical, o: Options, tops: seq<ReduceRule>)
    requires Settles(canonical) && Spell(replacements, canonical, o.replacements) && SpellReductions(reductions, canonical, tops)
    requires Acceptable(o.replacements, tops) && o.reductions == Firsts(tops, |tops|) && (o.reduceAny <==> Any in tops)
    requires forall i, j :: 0 <= i < j < |o.reductions| ==> o.reductions[i].top != o.reductions[j].top
    ensures Parsed(o, canonical)
  {
    forall x | x in o.reductions
      ensures Selected(x) in tops && x.top != "" && Fixed(canonical, x.top) && (x.target != "" ==> Fixed(canonical, x.target))
    {
      ReductionsAreFixed(reductions, canonical, tops, x);
    }
    forall i | 0 <= i < |o.replacements| ensures Fixed(canonical, o.replacements[i].source) && Fixed(canonical, o.replacements[i].target) {
      assert ReadReplacement(replacements[i], canonical) == Some(o.replacements[i]);
    }
    RulesAcceptable(o, tops);
  }

  lemma RulesAcceptable(o: Options, tops: seq<ReduceRule>)
    requires Acceptable(o.replacements, tops) && (o.reduceAny <==> Any in tops) && forall x :: x in o.reductions ==> Selected(x) in tops
    requires forall i, j :: 0 <= i < j < |o.reductions| ==> o.reductions[i].top != o.reductions[j].top
    ensures Acceptable(o.replacements, RulesOf(o))
  {
    RulesAreReductions(o);
    assert forall i :: 0 <= i < |o.reductions| ==> o.reductions[i] in o.reductions;
    forall i | 0 <= i < |o.reductions| ensures o.reductions[i].top != "" {
      var k :| 0 <= k < |tops| && tops[k] == Selected(o.reductions[i]);
    }
  }

  lemma RulesAreReductions(o: Options)
    ensures forall x :: Selected(x) in RulesOf(o) ==> x in o.reductions
    ensures forall i :: 0 <= i < |o.reductions| ==> RulesOf(o)[i] == Selected(o.reductions[i])
    ensures |RulesOf(o)| == |o.reductions| + if o.reduceAny then 1 else 0
  {
  }

  /** PublishWithOptions renders its options and parses them again: they come back exactly if they can be rendered. */
  method ReparseOptions(o: Options, canonical: Canonical) returns (r: Option<Options>)
    ensures Parsed(o, canonical) && Renderable(o) ==> r == Some(o)
    ensures Parsed(o, canonical) && AddsNoEquals(canonical) && r == Some(o) ==> Renderable(o)
  {
    var replacements := seq(|o.replacements|, i requires 0 <= i < |o.replacements| => RenderReplacement(o.replacements[i]));
    var reductions := seq(|o.reductions|, i requires 0 <= i < |o.reductions| => RenderReduction(o.reductions[i]));
    if o.reduceAny {
      reductions := reductions + ["any"];
    }
    r := ParseRewriteOptions(replacements, reductions, o.skipVerify, canonical);
    if Parsed(o, canonical) {
      RenderedSpells(o, canonical, replacements, reductions);
      FirstsOfRules(o);
      assert o.reduceAny ==> reductions[|o.reductions|] == "any";
      if Renderable(o) {
        SpellsOnce(replacements, reductions, canonical, o.replacements, RulesOf(o));
      }
      if r == Some(o) && AddsNoEquals(canonical) {
        SpelledIsRenderable(o, canonical, replacements, reductions);
      }
    }
  }

  ghost predicate IsRendered(o: Options, replacements: seq<string>, reductions: seq<string>) {
    && |replacements| == |o.replacements| && |reductions| == |o.reductions| + (if o.reduceAny then 1 else 0)
    && (forall i :: 0 <= i < |o.replacements| ==> replacements[i] == RenderReplacement(o.replacements[i]))
    && (forall i :: 0 <= i < |o.reductions| ==> reductions[i] == RenderReduction(o.reductions[i]))
    && (o.reduceAny ==> reductions[|o.reductions|] == "any")
  }

  lemma RenderedSpells(o: Options, canonical: Canonical, replacements: seq<string>, reductions: seq<string>)
    requires Parsed(o, canonical) && IsRendered(o, replacements, reductions)
    ensures Renderable(o) ==> Spell(replacements, canonical, o.replacements) && SpellReductions(reductions, canonical, RulesOf(o))
    ensures Renderable(o) && !o.reduceAny ==> "any" !in reductions
  {
    if Renderable(o) {
      forall i | 0 <= i < |o.replacements| ensures ReadReplacement(replacements[i], canonical) == Some(o.replacements[i]) {
        ReplacementReadBack(o.replacements[i], canonical);
      }
      forall i | 0 <= i < |o.reductions|
        ensures ReadReduction(reductions[i], canonical) == Some(Selected(o.reductions[i])) && reductions[i] != "any"
      {
        assert RulesOf(o)[i] == Selected(o.reductions[i]);
        ReductionReadBack(o.reductions[i], canonical);
      }
    }
  }

  lemma SpelledIsRenderable(o: Options, canonical: Canonical, replacements: seq<string>, reductions: seq<string>)
    requires Parsed(o, canonical) && AddsNoEquals(canonical) && IsRendered(o, replacements, reductions)
    requires Spell(replacements, canonical, o.replacements)
    requires exists tops :: SpellReductions(reductions, canonical, tops) && Firsts(tops, |tops|) == o.reductions
    ensures Renderable(o)
  {
    assert o.reductions != [] ==> o.reductions[0] in o.reductions;
    forall i | 0 <= i < |o.replacements| ensures ReplacementRenderable(o.replacements[i]) {
      ReplacementReadBack(o.replacements[i], canonical);
    }
    var tops :| SpellReductions(reductions, canonical, tops) && Firsts(tops, |tops|) == o.reductions;
    if o.reduceAny {
      assert o.reductions == [];
    } else {
      FirstsKeepAll(tops, |tops|);
      forall i | 0 <= i < |o.reductions| ensures ReductionRenderable(o.reductions[i]) {
        assert RulesOf(o)[i] == Selected(o.reductions[i]);
        ReductionReadBack(o.reductions[i], canonical);
      }
    }
  }

  // ----- The rules against each other -----

  method ParseReplacements(rules: seq<Replacement>) returns (ok: bool, endpoints: set<Ref>)
    ensures ok <==> ReplacementsOk(rules)
    ensures ok ==> forall ref :: ref in endpoints <==> exists y :: y in rules && ref in {y.source, y.target}
  {
    endpoints := {};
    for i := 0 to |rules|
      invariant forall ref :: ref in endpoints <==> exists k :: 0 <= k < i && ref in {rules[k].source, rules[k].target}
      invariant ReplacementsOk(rules[..i])
    {
      var rule := rules[i];
      if rule.source == "" || rule.target == "" || rule.source in endpoints || rule.target in endpoints {
        return false, endpoints;
      }
      endpoints := endpoints + {rule.source, rule.target};
      assert rules[..i + 1] == rules[..i] + [rule];
    }
    assert rules[..|rules|] == rules;
    ok := true;
  }

  /** The reductions the first n rules select, each once, in the order of its first mention. */
  ghost function Firsts(rules: seq<ReduceRule>, n: nat): seq<Reduction>
    requires n <= |rules|
  {
    if n == 0 then [] else Joined(Firsts(rules, n - 1), rules[n - 1])
  }

  ghost function Joined(before: seq<Reduction>, rule: ReduceRule): seq<Reduction> {
    if rule.Selected? && rule.rule !in before then before + [rule.rule] else before
  }

  lemma {:induction false} FirstsMembers(rules: seq<ReduceRule>, n: nat, x: Reduction)
    requires n <= |rules|
    ensures x in Firsts(rules, n) <==> Selected(x) in rules[..n]
  {
    if n == 0 {
    } else {
      FirstsMembers(rules, n - 1, x);
      assert rules[..n] == rules[..n - 1] + [rules[n - 1]];
    }
  }

  /** The kept reductions are the recorded targets, one for each top. */
  ghost predicate Tracks(targets: map<Ref, Ref>, kept: seq<Reduction>) {
    && (forall x :: x in kept <==> x.top in targets && targets[x.top] == x.target)
    && (forall a, b :: 0 <= a < b < |kept| ==> kept[a].top != kept[b].top)
  }

  lemma TracksNext(targets: map<Ref, Ref>, kept: seq<Reduction>, rule: Reduction)
    requires Tracks(targets, kept) && rule.top !in targets
    ensures rule !in kept && Tracks(targets[rule.top := rule.target], kept + [rule])
  {
    forall a | 0 <= a < |kept| ensures kept[a].top != rule.top {
      assert kept[a] in kept;
    }
  }

  /** The rule's top is not empty and recorded with its target. */
  ghost predicate Held(rule: ReduceRule, targets: map<Ref, Ref>) {
    rule.Any? || (rule.rule.top != "" && rule.rule.top in targets && targets[rule.rule.top] == rule.rule.target)
  }

  /** The first n rules are recorded. */
  ghost predicate Recorded(rules: seq<ReduceRule>, n: nat, targets: map<Ref, Ref>)
    requires n <= |rules|
  {
    forall k :: 0 <= k < n ==> Held(rules[k], targets)
  }

  lemma RecordedNext(rules: seq<ReduceRule>, n: nat, targets: map<Ref, Ref>, rule: Reduction)
    requires n < |rules| && Recorded(rules, n, targets) && rules[n] == Selected(rule) && rule.top != "" && rule.top !in targets
    ensures Recorded(rules, n + 1, targets[rule.top := rule.target])
  {
    forall k | 0 <= k < n + 1 ensures Held(rules[k], targets[rule.top := rule.target]) {
      assert k < n ==> Held(rules[k], targets);
    }
  }

  /** A top recorded with another target was given that target by an earlier rule. */
  lemma ConflictRefused(rules: seq<ReduceRule>, i: nat, targets: map<Ref, Ref>)
    requires i < |rules| && rules[i].Selected? && rules[i].rule.top in targets && targets[rules[i].rule.top] != rules[i].rule.target
    requires Tracks(targets, Firsts(rules, i))
    ensures !ReductionsOk(rules)
  {
    var other := Reduction(rules[i].rule.top, targets[rules[i].rule.top]);
    FirstsMembers(rules, i, other);
    var k :| 0 <= k < i && rules[k] == Selected(other);
    assert SameTopDiffers(rules[k], rules[i]);
  }

  lemma RecordedIsOk(rules: seq<ReduceRule>, targets: map<Ref, Ref>)
    requires Recorded(rules, |rules|, targets)
    ensures ReductionsOk(rules)
  {
    assert forall k :: 0 <= k < |rules| ==> Held(rules[k], targets);
  }

  method ParseReductions(reductions: seq<ReduceRule>) returns (ok: bool, any: bool, kept: seq<Reduction>)
    ensures ok <==> ReductionsOk(reductions)
    ensures ok ==>
              && kept == Firsts(reductions, |reductions|)
              && (any <==> Any in reductions)
              && (forall x :: x in kept <==> Selected(x) in reductions)
              && (forall i, j :: 0 <= i < j < |kept| ==> kept[i].top != kept[j].top)
  {
    var targets: map<Ref, Ref> := map[];
    any, kept := false, [];
    for i := 0 to |reductions|
      invariant kept == Firsts(reductions, i) && Tracks(targets, kept)
      invariant any <==> exists k :: 0 <= k < i && reductions[k] == Any
      invariant Recorded(reductions, i, targets)
    {
      if reductions[i] == Any {
        any := true;
        continue;
      }
      var rule := reductions[i].rule;
      if rule.top == "" {
        return false, any, kept;
      }
      if rule.top in targets {
        if targets[rule.top] != rule.target {
          ConflictRefused(reductions, i, targets);
          return false, any, kept;
        }
        continue;
      }
      TracksNext(targets, kept, rule);
      RecordedNext(reductions, i, targets, rule);
      targets := targets[rule.top := rule.target];
      kept := kept + [rule];
    }
    assert reductions[..|reductions|] == reductions;
    RecordedIsOk(reductions, targets);
    forall x ensures x in kept <==> Selected(x) in reductions {
      FirstsMembers(reductions, |reductions|, x);
    }
    ok := true;
  }

  /** Rules apply once: a replaced reference is never the source of another rule. */
  lemma SinglePass(o: Options, raw: Ref)
    requires forall i, j :: 0 <= i < j < |o.replacements| ==> !Shares(o.replacements[i], o.replacements[j])
    ensures MapRef(o, MapRef(o, raw)) == MapRef(o, raw)
  {
    var k := ReplacementOf(o.replacements, raw);
    if k < |o.replacements| {
      var j := ReplacementOf(o.replacements, o.replacements[k].target);
      if j < |o.replacements| && j != k {
        assert Shares(o.replacements[if j < k then j else k], o.replacements[if j < k then k else j]);
      }
    }
  }

  // ----- Which rules matched -----

  /** Rule k is the one that applies to ref. */
  ghost predicate Hits(rules: seq<Replacement>, ref: Ref, k: nat) {
    ref != "" && ref != "self" && ReplacementOf(rules, ref) == k
  }

  ghost predicate HitsAny(rules: seq<Replacement>, refs: seq<Ref>, k: nat) {
    exists j :: 0 <= j < |refs| && Hits(rules, refs[j], k)
  }

  /** Looking up the references marked exactly the rules that apply to them. */
  ghost predicate Marked(rules: seq<Replacement>, before: seq<bool>, after: seq<bool>, refs: seq<Ref>) {
    |after| == |before| && forall k :: 0 <= k < |after| ==> MarkedAt(rules, before, after, refs, k)
  }

  ghost predicate MarkedAt(rules: seq<Replacement>, before: seq<bool>, after: seq<bool>, refs: seq<Ref>, k: nat)
    requires k < |after| == |before|
  {
    after[k] <==> before[k] || HitsAny(rules, refs, k)
  }

  lemma HitsEither(rules: seq<Replacement>, xs: seq<Ref>, ys: seq<Ref>, k: nat)
    ensures HitsAny(rules, xs + ys, k) <==> HitsAny(rules, xs, k) || HitsAny(rules, ys, k)
  {
    var all := xs + ys;
    if HitsAny(rules, xs, k) {
      var j :| 0 <= j < |xs| && Hits(rules, xs[j], k);
      assert Hits(rules, all[j], k);
    }
    if HitsAny(rules, ys, k) {
      var j :| 0 <= j < |ys| && Hits(rules, ys[j], k);
      assert Hits(rules, all[|xs| + j], k);
    }
  }

  lemma MarkedThen(rules: seq<Replacement>, a: seq<bool>, b: seq<bool>, c: seq<bool>, xs: seq<Ref>, ys: seq<Ref>)
    requires Marked(rules, a, b, xs) && Marked(rules, b, c, ys)
    ensures Marked(rules, a, c, xs + ys)
  {
    forall k | 0 <= k < |c| ensures MarkedAt(rules, a, c, xs + ys, k) {
      assert MarkedAt(rules, a, b, xs, k) && MarkedAt(rules, b, c, ys, k);
      HitsEither(rules, xs, ys, k);
    }
  }

  ghost predicate Reduces(o: Options, tops: seq<Ref>, k: nat) {
    !o.reduceAny && exists j :: 0 <= j < |tops| && ReductionOf(o.reductions, tops[j]) == k
  }

  /** Looking up the tops marked exactly the reductions that select them. */
  ghost predicate MarkedTops(o: Options, before: seq<bool>, after: seq<bool>, tops: seq<Ref>) {
    |after| == |before| && forall k :: 0 <= k < |after| ==> MarkedTopAt(o, before, after, tops, k)
  }

  ghost predicate MarkedTopAt(o: Options, before: seq<bool>, after: seq<bool>, tops: seq<Ref>, k: nat)
    requires k < |after| == |before|
  {
    after[k] <==> before[k] || Reduces(o, tops, k)
  }

  lemma MarkedTopsThen(o: Options, a: seq<bool>, b: seq<bool>, c: seq<bool>, xs: seq<Ref>, y: Ref)
    requires MarkedTops(o, a, b, xs) && MarkedTops(o, b, c, [y])
    ensures MarkedTops(o, a, c, xs + [y])
  {
    forall k | 0 <= k < |c| ensures MarkedTopAt(o, a, c, xs + [y], k) {
      assert MarkedTopAt(o, a, b, xs, k) && MarkedTopAt(o, b, c, [y], k);
      assert (xs + [y])[|xs|] == y && [y][0] == y;
      if Reduces(o, xs, k) {
        var j :| 0 <= j < |xs| && ReductionOf(o.reductions, xs[j]) == k;
        assert (xs + [y])[j] == xs[j];
      }
    }
  }

  /** The rules of one publication and which of them have matched. */
  class Session {
    const options: Options
    var matchedReplacement: seq<bool>
    var matchedReduction: seq<bool>

    ghost predicate Valid()
      reads this
    {
      |matchedReplacement| == |options.replacements| && |matchedReduction| == |options.reductions|
    }

    constructor (options: Options)
      ensures Valid() && this.options == options
      ensures (forall i :: 0 <= i < |matchedReplacement| ==> !matchedReplacement[i])
      ensures (forall i :: 0 <= i < |matchedReduction| ==> !matchedReduction[i])
    {
      this.options := options;
      matchedReplacement := seq(|options.replacements|, _ => false);
      matchedReduction := seq(|options.reductions|, _ => false);
    }

    method Replace(raw: Ref) returns (r: Ref)
      requires Valid()
      modifies this`matchedReplacement
      ensures Valid() && r == MapRef(options, raw)
      ensures var k := ReplacementOf(options.replacements, raw);
              matchedReplacement ==
              if raw == "" || raw == "self" || k == |options.replacements| then old(matchedReplacement)
              else old(matchedReplacement)[k := true]
      ensures Marked(options.replacements, old(matchedReplacement), matchedReplacement, [raw])
    {
      assert [raw][0] == raw;
      if raw == "" || raw == "self" {
        return raw;
      }
      var i := 0;
      while i < |options.replacements|
        invariant i <= ReplacementOf(options.replacements, raw)
        invariant matchedReplacement == old(matchedReplacement)
      {
        if raw == options.replacements[i].source {
          matchedReplacement := matchedReplacement[i := true];
          return options.replacements[i].target;
        }
        i := i + 1;
      }
      return raw;
    }

    method Reduce(top: Ref, hasLowers: bool) returns (r: Option<Ref>)
      requires Valid()
      modifies this`matchedReduction
      ensures Valid() && r == ReductionFor(options, top, hasLowers)
      ensures var k := ReductionOf(options.reductions, top);
              matchedReduction ==
              if options.reduceAny || k == |options.reductions| then old(matchedReduction)
              else old(matchedReduction)[k := true]
      ensures MarkedTops(options, old(matchedReduction), matchedReduction, [top])
    {
      assert [top][0] == top;
      if options.reduceAny {
        return if hasLowers then Some("") else None;
      }
      var i := 0;
      while i < |options.reductions|
        invariant i <= ReductionOf(options.reductions, top)
        invariant matchedReduction == old(matchedReduction)
      {
        if top == options.reductions[i].top {
          matchedReduction := matchedReduction[i := true];
          return Some(options.reductions[i].target);
        }
        i := i + 1;
      }
      return None;
    }

    /** Every rule has matched some reference. */
    predicate AllMatched()
      reads this
    {
      && (forall i :: 0 <= i < |matchedReplacement| ==> matchedReplacement[i])
      && (forall i :: 0 <= i < |matchedReduction| ==> matchedReduction[i])
    }

    method CheckMatched() returns (ok: bool)
      ensures ok <==> AllMatched()
    {
      for i := 0 to |matchedReplacement|
        invariant forall k :: 0 <= k < i ==> matchedReplacement[k]
      {
        if !matchedReplacement[i] {
          return false;
        }
      }
      for i := 0 to |matchedReduction|
        invariant forall k :: 0 <= k < i ==> matchedReduction[k]
      {
        if !matchedReduction[i] {
          return false;
        }
      }
      ok := true;
    }
  }

  /** A layer or target opened for the plan. */
  class Value {
    const raw: Ref
    const payload: Source
    const config: nat
    const force: bool
    var published: Ref

    constructor (raw: Ref, payload: Source, config: nat, force: bool)
      ensures this.raw == raw && this.payload == payload && this.config == config && this.force == force
      ensures published == ""
    {
      this.raw, this.payload, this.config, this.force := raw, payload, config, force;
      published := "";
    }
  }

  ghost predicate Injective(name: Object -> Ref) {
    forall a, b :: name(a) == name(b) ==> a == b
  }

  /** The content-addressed publish target; fails(i) is the outcome of its i-th Put. */
  class Target {
    const name: Object -> Ref
    const fails: nat -> bool
    var objects: map<Ref, Object>
    var puts: nat

    constructor (name: Object -> Ref, fails: nat -> bool)
      ensures this.name == name && this.fails == fails && objects == map[] && puts == 0
    {
      this.name, this.fails := name, fails;
      objects, puts := map[], 0;
    }

    ghost predicate Valid()
      reads this
    {
      Injective(name) && (forall o :: name(o) != "") && forall ref :: ref in objects ==> name(objects[ref]) == ref
    }

    method Put(o: Object) returns (r: Option<Ref>)
      requires Valid()
      modifies this
      ensures Valid() && Grows(old(objects), objects)
      ensures r.Some? ==> r.value == name(o) && objects == old(objects)[r.value := o]
      ensures r.None? ==> objects == old(objects) && fails(old(puts))
    {
      puts := puts + 1;
      if fails(puts - 1) {
        return None;
      }
      objects := objects[name(o) := o];
      return Some(name(o));
    }
  }

  ghost predicate Grows(before: map<Ref, Object>, after: map<Ref, Object>) {
    forall ref :: ref in before ==> ref in after && after[ref] == before[ref]
  }

  /** The reference fields of one chain in the configuration being rewritten. */
  class Slot {
    var base: Ref
    var lowers: seq<Ref>
  }

  /** A planned chain; an embedded top lives in the root object instead of behind slot.base. */
  datatype Chain = Chain(
    values: seq<Value>, target: Option<Value>, source: Source, slot: Slot,
    embedded: bool, reduced: bool, automatic: bool)
  {
    function TopSource(): Source
      requires values != []
    {
      if reduced then source else values[0].payload
    }

    /** The values that emitting the chain may publish: all but an embedded top. */
    ghost function Emitted(): set<Value> {
      (set k | (if embedded then 1 else 0) <= k < |values| :: values[k]) + if target.Some? then {target.value} else {}
    }

    /** The objects the plan consists of. */
    ghost function Parts(): set<object> {
      {slot} + (set k | 0 <= k < |values| :: values[k]) + if target.Some? then {target.value} else {}
    }

    /** The image configuration of the value the chain's base comes from. */
    ghost function Config(): nat
      requires values != []
    {
      if target.Some? then target.value.config else values[0].config
    }
  }

  /** One chain of the configuration to rewrite. */
  datatype Request = Request(selector: Ref, slot: Slot, embedded: Option<Value>, use: Use)

  datatype PlanError = Unavailable | Overlap | NotEquivalent | CapacityDiffers | DuplicateRef
  datatype PlanResult = Planned(chain: Chain) | Rejected(error: PlanError)
  datatype ValueResult = Usable(value: Value) | Unusable(error: PlanError)

  class Publication {
    const open: Ref -> OpenResult        // openValue in the chain's scope and use
    const openBare: Ref -> OpenResult    // the plain logical stream behind a reference
    const layer: seq<Source> -> Source   // fetch.NewLayered
    const cancelled: nat -> bool
    const session: Session
    const target: Target
    ghost const known: iset<Source>       // the sources this publication can meet

    constructor (open: Ref -> OpenResult, openBare: Ref -> OpenResult, layer: seq<Source> -> Source,
                 cancelled: nat -> bool, session: Session, target: Target, ghost known: iset<Source>)
      ensures this.open == open && this.openBare == openBare && this.layer == layer && this.cancelled == cancelled
      ensures this.session == session && this.target == target && this.known == known
    {
      this.open, this.openBare, this.layer, this.cancelled := open, openBare, layer, cancelled;
      this.session, this.target, this.known := session, target, known;
    }

    /** Sources do not lie, commitments identify content, layering reads first-present, portable names mean one thing. */
    ghost predicate Trusted() {
      && (forall a, b {:trigger CommitmentsSound(a, b)} :: a in known && b in known ==>
            Honest(a) && Honest(b) && CommitmentsSound(a, b))
      && (forall raw :: open(raw).Found? ==> open(raw).value.payload in known)
      && (forall raw :: openBare(raw).Found? ==> openBare(raw).value.payload in known)
      && (forall ss {:trigger layer(ss)} :: LayersWell(ss))
      && (forall o, raw {:trigger NameMeans(o, raw)} :: NameMeans(o, raw))
    }

    /** Layering several known sources of one size reads the first present cell. */
    ghost predicate LayersWell(ss: seq<Source>) {
      |ss| > 1 && (forall k :: 0 <= k < |ss| ==> ss[k] in known) && SameSize(Cells(ss)) ==>
        layer(ss) in known && layer(ss).cells == Layered(Cells(ss))
    }

    /** An object published under a portable reference's name has that reference's content. */
    ghost predicate NameMeans(o: Object, raw: Ref) {
      open(raw).Found? && !open(raw).value.force && target.name(o) == raw ==>
        o.cells == open(raw).value.payload.cells && o.config == open(raw).value.config
    }

    ghost predicate Valid()
      reads this, session, target
    {
      Trusted() && session.Valid() && target.Valid()
    }

    /** A value as openValue made it, with a truthful memory of where it was published. */
    ghost predicate ValueOk(v: Value, objects: map<Ref, Object>)
      reads v
    {
      && open(v.raw) == Found(Opened(v.payload, v.config, v.force))
      && (v.published != "" ==> v.published in objects && objects[v.published] == Object(v.payload.cells, v.config))
    }

    /** What a reference reads at the destination: published there, or portable. */
    ghost function Resolve(objects: map<Ref, Object>, ref: Ref): Option<seq<Cell>> {
      if ref in objects then Some(objects[ref].cells)
      else if open(ref).Found? && !open(ref).value.force then Some(open(ref).value.payload.cells)
      else None
    }

    /** The image configuration a reference has at the destination. */
    ghost function ConfigAt(objects: map<Ref, Object>, ref: Ref): nat
      requires Resolve(objects, ref).Some?
    {
      if ref in objects then objects[ref].config else open(ref).value.config
    }

    ghost function ResolveAll(objects: map<Ref, Object>, refs: seq<Ref>): (r: seq<seq<Cell>>)
      requires forall k :: 0 <= k < |refs| ==> Resolve(objects, refs[k]).Some?
      ensures |r| == |refs| && forall k :: 0 <= k < |r| ==> Some(r[k]) == Resolve(objects, refs[k])
    {
      seq(|refs|, k requires 0 <= k < |refs| => Resolve(objects, refs[k]).value)
    }

    ghost function OpenAll(refs: seq<Ref>): (r: seq<seq<Cell>>)
      requires forall k :: 0 <= k < |refs| ==> open(refs[k]).Found?
      ensures |r| == |refs| && forall k :: 0 <= k < |r| ==> r[k] == open(refs[k]).value.payload.cells
    {
      seq(|refs|, k requires 0 <= k < |refs| => open(refs[k]).value.payload.cells)
    }

    /** What the chain reads at the destination, given its top layer. */
    ghost predicate Reads(objects: map<Ref, Object>, top: Option<seq<Cell>>, lowers: seq<Ref>, cells: seq<Cell>) {
      && top.Some?
      && (forall k :: 0 <= k < |lowers| ==> Resolve(objects, lowers[k]).Some?)
      && SameSize([top.value] + ResolveAll(objects, lowers))
      && Layered([top.value] + ResolveAll(objects, lowers)) == cells
    }

    /** What the chain read before the rewrite. */
    ghost predicate Original(embedded: Option<Source>, base: Ref, lowers: seq<Ref>, cells: seq<Cell>) {
      && (embedded.None? ==> open(base).Found?)
      && (forall k :: 0 <= k < |lowers| ==> open(lowers[k]).Found?)
      && var top := if embedded.Some? then embedded.value.cells else open(base).value.payload.cells;
         SameSize([top] + OpenAll(lowers)) && Layered([top] + OpenAll(lowers)) == cells
    }

    /** The value reads what raw reads and, as an image, has its configuration. */
    ghost predicate Equivalent(raw: Ref, use: Use, v: Value) {
      && open(raw).Found? && open(raw).value.payload.cells == v.payload.cells
      && (use == Image ==> open(raw).value.config == v.config)
    }

    /** A layer that stands for raw: unpublished, of the given size and, when verified, with raw's content. */
    ghost predicate LayerOk(v: Value, raw: Ref, size: nat)
      reads v
    {
      && ValueOk(v, map[]) && v.published == "" && |v.payload.cells| == size
      && (!session.options.skipVerify ==>
            open(raw).Found? && open(raw).value.payload.cells == v.payload.cells)
    }

    method OpenValue(raw: Ref) returns (r: ValueResult)
      ensures r.Unusable? <==> open(raw) == Missing
      ensures r.Usable? ==> fresh(r.value) && r.value.raw == raw && r.value.published == "" &&
                            open(raw) == Found(Opened(r.value.payload, r.value.config, r.value.force))
    {
      var o := open(raw);
      if o.Missing? {
        return Unusable(Unavailable);
      }
      var v := new Value(raw, o.value.payload, o.value.config, o.value.force);
      return Usable(v);
    }

    /** No source fails and the publication is not cancelled. */
    ghost predicate Healthy() {
      (forall s {:trigger FaultFree(s)} :: s in known ==> FaultFree(s)) && forall i :: !cancelled(i)
    }

    ghost function Mapped(raw: Ref, apply: bool): Ref { if apply then MapRef(session.options, raw) else raw }

    /** A replacement is accepted exactly when it reads what the replaced reference reads. */
    ghost predicate Admissible(raw: Ref, use: Use, apply: bool) {
      var mapped := Mapped(raw, apply);
      && open(mapped).Found?
      && (mapped != raw && !session.options.skipVerify ==>
            && open(raw).Found? && open(raw).value.payload.cells == open(mapped).value.payload.cells
            && (use == Image ==> open(raw).value.config == open(mapped).value.config))
    }

    /** Since the flags were as given, exactly the rules for these references were marked. */
    ghost predicate Looked(before: seq<bool>, refs: seq<Ref>)
      reads session
    {
      Marked(session.options.replacements, before, session.matchedReplacement, refs)
    }

    /** The references a plan looks up. */
    ghost function Visited(embedded: bool, base: Ref, lowers: seq<Ref>, apply: bool): seq<Ref> {
      if !apply then [] else (if embedded then [] else [base]) + lowers
    }

    /** The layer to use for raw: itself, or its replacement once that is shown to read the same. */
    method ChangedValue(raw: Ref, use: Use, apply: bool) returns (r: ValueResult)
      requires Valid()
      modifies session`matchedReplacement
      ensures Valid()
      ensures r.Usable? ==> fresh(r.value) && ValueOk(r.value, map[]) && r.value.published == ""
      ensures r.Usable? ==> r.value.raw == Mapped(raw, apply)
      ensures r.Usable? && !session.options.skipVerify ==> Equivalent(raw, use, r.value)
      ensures Healthy() ==> (r.Usable? <==> Admissible(raw, use, apply))
      ensures Looked(old(session.matchedReplacement), if apply then [raw] else [])
    {
      var mapped := raw;
      if apply {
        mapped := session.Replace(raw);
      }
      r := OpenValue(mapped);
      if r.Unusable? {
        return;
      }
      if mapped != raw && !session.options.skipVerify {
        var before := OpenValue(raw);
        if before.Unusable? {
          return Unusable(Unavailable);
        }
        if use == Image && before.value.config != r.value.config {
          return Unusable(NotEquivalent);
        }
        assert CommitmentsSound(before.value.payload, r.value.payload);
        assert Healthy() ==> FaultFree(before.value.payload) && FaultFree(r.value.payload);
        var verdict := CompareSparseStreams(before.value.payload, r.value.payload, cancelled);
        if verdict != Same {
          return Unusable(NotEquivalent);
        }
      }
    }

    /** What a reduction target opens as; one for embedded memory may be a bare stream of the right size. */
    ghost function TargetOf(raw: Ref, size: nat, memory: bool): OpenResult {
      if !memory then open(raw)
      else if openBare(raw).Missing? then Missing
      else if |openBare(raw).value.payload.cells| == size then Found(Opened(openBare(raw).value.payload, NO_CONFIG, false))
      else open(raw)
    }

    /** An explicitly supplied merged memory target can be a bare logical stream. */
    method MemoryTarget(raw: Ref, size: nat) returns (r: ValueResult)
      ensures r.Usable? <==> TargetOf(raw, size, true).Found?
      ensures r.Usable? ==> TargetOf(raw, size, true) == Found(Opened(r.value.payload, r.value.config, r.value.force))
      ensures r.Usable? ==> fresh(r.value) && r.value.raw == raw && r.value.published == ""
      ensures r.Usable? ==>
                || open(raw) == Found(Opened(r.value.payload, r.value.config, r.value.force))
                || (openBare(raw).Found? && openBare(raw).value.payload == r.value.payload && |r.value.payload.cells| == size)
    {
      var bare := openBare(raw);
      if bare.Missing? {
        return Unusable(Unavailable);
      }
      if |bare.value.payload.cells| == size {
        var v := new Value(raw, bare.value.payload, NO_CONFIG, false);
        return Usable(v);
      }
      r := OpenValue(raw);
    }

    /** Replacement endpoints may not lie on a reduced chain. */
    method OverlapsReduction(top: Ref, lowers: seq<Ref>) returns (overlaps: bool)
      ensures overlaps <==> OnChain(session.options.replacements, [top] + lowers)
    {
      var refs := {};
      var all := [top] + lowers;
      for k := 0 to |all|
        invariant forall ref :: ref in refs <==> ref in all[..k]
      {
        refs := refs + {all[k]};
      }
      assert all[..|all|] == all;
      for i := 0 to |session.options.replacements|
        invariant forall j :: 0 <= j < i ==>
          session.options.replacements[j].source !in all && session.options.replacements[j].target !in all
      {
        var rule := session.options.replacements[i];
        if rule.source in refs || rule.target in refs {
          return true;
        }
      }
      return false;
    }

    /** A lower layer that the plan accepts: admissible and of the given size. */
    ghost predicate LowerFits(raw: Ref, use: Use, apply: bool, size: nat) {
      Admissible(raw, use, apply) && |open(Mapped(raw, apply)).value.payload.cells| == size
    }

    /** The layers a plan accepts: an embedded or admissible top, and lowers as large. */
    ghost predicate LayersFit(embedded: Option<Source>, base: Ref, lowers: seq<Ref>, use: Use, apply: bool) {
      && (embedded.None? ==> Admissible(base, use, apply))
      && var size := |(if embedded.Some? then embedded.value else open(Mapped(base, apply)).value.payload).cells|;
         forall k :: 0 <= k < |lowers| ==> LowerFits(lowers[k], use, apply, size)
    }

    /** A usable lower layer for raw. */
    ghost predicate LowerOk(v: Value, raw: Ref, size: nat, apply: bool)
      reads v
    {
      LayerOk(v, raw, size) && v.raw == Mapped(raw, apply) && v.payload in known
    }

    /** One lower layer. */
    method PlanLower(raw: Ref, size: nat, use: Use, apply: bool) returns (r: ValueResult)
      requires Valid()
      modifies session`matchedReplacement
      ensures Valid()
      ensures r.Usable? ==> fresh(r.value) && LowerOk(r.value, raw, size, apply)
      ensures Healthy() ==> (r.Usable? <==> LowerFits(raw, use, apply, size))
      ensures Looked(old(session.matchedReplacement), if apply then [raw] else [])
    {
      r := ChangedValue(raw, use, apply);
      if r.Usable? && |r.value.payload.cells| != size {
        r := Unusable(CapacityDiffers);
      }
    }

    /** The lower layers, each as large as the top. */
    method PlanLowers(top: Value, lowers: seq<Ref>, use: Use, apply: bool) returns (ok: bool, error: PlanError, values: seq<Value>)
      requires Valid()
      modifies session`matchedReplacement
      ensures Valid()
      ensures ok ==>
                && |values| == |lowers|
                && forall k :: 0 <= k < |values| ==> fresh(values[k]) && LayerOk(values[k], lowers[k], |top.payload.cells|)
      ensures ok ==> forall k :: 0 <= k < |values| ==> values[k].raw == Mapped(lowers[k], apply) && values[k].payload in known
      ensures Healthy() ==> (ok <==> forall k :: 0 <= k < |lowers| ==> LowerFits(lowers[k], use, apply, |top.payload.cells|))
      ensures ok ==> Looked(old(session.matchedReplacement), if apply then lowers else [])
    {
      values := [];
      ghost var flags := session.matchedReplacement;
      for i := 0 to |lowers|
        invariant Valid() && |values| == i
        invariant forall k :: 0 <= k < i ==> fresh(values[k]) && LowerOk(values[k], lowers[k], |top.payload.cells|, apply)
        invariant Healthy() ==> forall k :: 0 <= k < i ==> LowerFits(lowers[k], use, apply, |top.payload.cells|)
        invariant Looked(flags, if apply then lowers[..i] else [])
      {
        ghost var seen := session.matchedReplacement;
        var v := PlanLower(lowers[i], |top.payload.cells|, use, apply);
        if v.Unusable? {
          return false, v.error, [];
        }
        LookedNext(flags, seen, session.matchedReplacement, lowers, i, apply);
        values := values + [v.value];
      }
      assert lowers[..|lowers|] == lowers;
      return true, Unavailable, values;
    }

    lemma VisitedTogether(a: seq<bool>, b: seq<bool>, c: seq<bool>, embedded: bool, base: Ref, lowers: seq<Ref>, apply: bool)
      requires Marked(session.options.replacements, a, b, if apply && !embedded then [base] else [])
      requires Marked(session.options.replacements, b, c, if apply then lowers else [])
      ensures Marked(session.options.replacements, a, c, Visited(embedded, base, lowers, apply))
    {
      var first, second := if apply && !embedded then [base] else [], if apply then lowers else [];
      MarkedThen(session.options.replacements, a, b, c, first, second);
      assert first + second == Visited(embedded, base, lowers, apply);
    }

    lemma LookedNext(a: seq<bool>, b: seq<bool>, c: seq<bool>, lowers: seq<Ref>, i: nat, apply: bool)
      requires i < |lowers|
      requires Marked(session.options.replacements, a, b, if apply then lowers[..i] else [])
      requires Marked(session.options.replacements, b, c, if apply then [lowers[i]] else [])
      ensures Marked(session.options.replacements, a, c, if apply then lowers[..i + 1] else [])
    {
      if apply {
        MarkedThen(session.options.replacements, a, b, c, lowers[..i], [lowers[i]]);
        assert lowers[..i + 1] == lowers[..i] + [lowers[i]];
      } else {
        var none: seq<Ref> := [];
        MarkedThen(session.options.replacements, a, b, c, none, none);
        assert none + none == none;
      }
    }

    /** fetch.NewLayered, which a single layer bypasses. */
    method LayerValues(values: seq<Value>) returns (s: Source)
      requires values != [] && Trusted()
      ensures (forall k :: 0 <= k < |values| ==> values[k].payload in known) && SameSize(Payloads(values)) ==>
                s in known && s.cells == Layered(Payloads(values))
      ensures |values| == 1 ==> s == values[0].payload
    {
      if |values| == 1 {
        LayeredSingle(values[0].payload.cells);
        assert Payloads(values) == [values[0].payload.cells];
        return values[0].payload;
      }
      var sources := seq(|values|, k requires 0 <= k < |values| => values[k].payload);
      assert Cells(sources) == Payloads(values);
      assert LayersWell(sources);
      return layer(sources);
    }

    /** External references of a kept chain stay distinct. */
    method PositionsDistinct(values: seq<Value>, embedded: bool) returns (ok: bool)
      ensures ok <==> forall i, j :: (if embedded then 1 else 0) <= i < j < |values| ==> values[i].raw != values[j].raw
    {
      var seen := {};
      var from := if embedded then 1 else 0;
      for i := 0 to |values|
        invariant forall ref :: ref in seen <==> exists k :: from <= k < i && values[k].raw == ref
        invariant forall a, b :: from <= a < b < i ==> values[a].raw != values[b].raw
      {
        if i == 0 && embedded {
          continue;
        }
        if values[i].raw in seen {
          return false;
        }
        seen := seen + {values[i].raw};
      }
      return true;
    }

    ghost predicate ChainOk(c: Chain, objects: map<Ref, Object>)
      reads c.Parts()
    {
      && c.values != []
      && (forall k :: (if c.embedded then 1 else 0) <= k < |c.values| ==> ValueOk(c.values[k], objects))
      && (!c.reduced ==>
            && !c.automatic && c.target.None? && |c.slot.lowers| == |c.values| - 1
            && SameSize(Payloads(c.values)) && c.source.cells == Layered(Payloads(c.values)))
      && (c.reduced ==> c.slot.lowers == [])
      && (c.target.Some? ==>
            !c.automatic && c.source.cells == c.target.value.payload.cells && (!c.embedded ==> ValueOk(c.target.value, objects)))
      && (c.reduced && c.target.None? && !c.automatic ==> c.source.cells == c.values[0].payload.cells)
    }

    /** The references of a kept chain are distinct once mapped. */
    ghost predicate RefsDistinct(embedded: bool, base: Ref, lowers: seq<Ref>, apply: bool) {
      && (forall i, j :: 0 <= i < j < |lowers| ==> Mapped(lowers[i], apply) != Mapped(lowers[j], apply))
      && (!embedded ==> forall j :: 0 <= j < |lowers| ==> Mapped(base, apply) != Mapped(lowers[j], apply))
    }

    lemma NamedDistinct(values: seq<Value>, embedded: bool, base: Ref, lowers: seq<Ref>, apply: bool)
      requires Named(values, embedded, base, lowers, apply)
      ensures (forall i, j :: (if embedded then 1 else 0) <= i < j < |values| ==> values[i].raw != values[j].raw) <==>
              RefsDistinct(embedded, base, lowers, apply)
    {
      if forall i, j :: (if embedded then 1 else 0) <= i < j < |values| ==> values[i].raw != values[j].raw {
        forall i, j | 0 <= i < j < |lowers| ensures Mapped(lowers[i], apply) != Mapped(lowers[j], apply) {
          assert NamedAt(values, lowers, apply, i) && NamedAt(values, lowers, apply, j);
          assert values[i + 1].raw != values[j + 1].raw;
        }
        if !embedded {
          forall j | 0 <= j < |lowers| ensures Mapped(base, apply) != Mapped(lowers[j], apply) {
            assert NamedAt(values, lowers, apply, j);
            assert values[0].raw != values[j + 1].raw;
          }
        }
      }
      if RefsDistinct(embedded, base, lowers, apply) {
        forall i, j | (if embedded then 1 else 0) <= i < j < |values| ensures values[i].raw != values[j].raw {
          assert NamedAt(values, lowers, apply, j - 1);
          if i > 0 {
            assert NamedAt(values, lowers, apply, i - 1);
          }
        }
      }
    }

    /** With verification on and healthy sources, the chains a plan accepts. */
    ghost predicate Plannable(selector: Ref, embedded: Option<Value>, base: Ref, lowers: seq<Ref>, use: Use, apply: bool) {
      var reduction := if apply then ReductionFor(session.options, selector, |lowers| > 0) else None;
      var top := if embedded.Some? then Some(embedded.value.payload) else None;
      && (reduction.Some? ==> !OnChain(session.options.replacements, [selector] + lowers))
      && LayersFit(top, base, lowers, use, apply)
      && (reduction.None? ==> RefsDistinct(embedded.Some?, base, lowers, apply))
      && (reduction.Some? && reduction.value != "" ==> TargetSuits(reduction.value, embedded, base, lowers, use, apply))
    }

    /** The layers are put together into a new object. */
    ghost predicate Flattened(selector: Ref, lowers: seq<Ref>, apply: bool) {
      apply && lowers != [] && ReductionFor(session.options, selector, true) == Some("")
    }

    /** The explicit target reads what the chain read, with the top's image configuration. */
    ghost predicate TargetSuits(target: Ref, embedded: Option<Value>, base: Ref, lowers: seq<Ref>, use: Use, apply: bool)
      requires embedded.None? ==> open(Mapped(base, apply)).Found?
    {
      var top := if embedded.Some? then Opened(embedded.value.payload, embedded.value.config, false) else open(Mapped(base, apply)).value;
      var found := TargetOf(target, |top.payload.cells|, use == Memory && embedded.Some?);
      && found.Found?
      && Original(if embedded.Some? then Some(embedded.value.payload) else None, base, lowers, found.value.payload.cells)
      && (use == Image ==> found.value.config == top.config)
    }

    /** For layers that fit, what is left to accept is decided by the opened values. */
    lemma StackableIsPlannable(selector: Ref, reduction: Option<Ref>, values: seq<Value>, cells: seq<Cell>, embedded: Option<Value>,
                               base: Ref, lowers: seq<Ref>, use: Use, apply: bool)
      requires Named(values, embedded.Some?, base, lowers, apply)
      requires if embedded.Some? then values[0] == embedded.value else ValueOk(values[0], map[])
      requires Original(if embedded.Some? then Some(embedded.value.payload) else None, base, lowers, cells)
      requires LayersFit(if embedded.Some? then Some(embedded.value.payload) else None, base, lowers, use, apply)
      requires reduction == if apply then ReductionFor(session.options, selector, |lowers| > 0) else None
      requires reduction.Some? ==> !OnChain(session.options.replacements, [selector] + lowers)
      ensures Plannable(selector, embedded, base, lowers, use, apply) <==> Stackable(reduction, values, cells, embedded.Some?, use)
    {
      NamedDistinct(values, embedded.Some?, base, lowers, apply);
    }

    /** How the planned chain's form follows from the reduction that applies. */
    ghost predicate Shaped(c: Chain, reduction: Option<Ref>, hadLowers: bool) {
      && (c.reduced <==> reduction.Some?)
      && (c.target.Some? <==> reduction.Some? && reduction.value != "")
      && (c.target.Some? ==> c.target.value.raw == reduction.value)
      && (c.automatic <==> reduction == Some("") && hadLowers)
    }

    /** Plan a chain; with verification on, what is planned reads what the chain read. */
    method PlanChain(selector: Ref, slot: Slot, embedded: Option<Value>, use: Use, apply: bool) returns (r: PlanResult)
      requires Valid()
      requires embedded.Some? ==> embedded.value.payload in known
      modifies slot, session
      ensures Valid() && slot.base == old(slot.base)
      ensures r.Planned? ==> r.chain.slot == slot && r.chain.embedded == embedded.Some? && ChainOk(r.chain, map[])
      ensures r.Planned? && !r.chain.reduced ==> slot.lowers == old(slot.lowers)
      ensures r.Planned? ==> Shaped(r.chain, if apply then ReductionFor(session.options, selector, |old(slot.lowers)| > 0) else None, old(slot.lowers) != [])
      ensures r.Planned? && !r.chain.reduced && embedded.Some? ==> r.chain.values[0] == embedded.value
      ensures r.Planned? ==> forall k :: (if embedded.Some? then 1 else 0) <= k < |r.chain.values| ==> fresh(r.chain.values[k])
      ensures r.Planned? && r.chain.target.Some? ==> fresh(r.chain.target.value)
      ensures r.Planned? && !session.options.skipVerify ==>
                Original(if embedded.Some? then Some(embedded.value.payload) else None,
                         old(slot.base), old(slot.lowers), r.chain.source.cells)
      ensures r.Planned? && !session.options.skipVerify && use == Image && embedded.None? ==>
                open(old(slot.base)).Found? && r.chain.Config() == open(old(slot.base)).value.config
      ensures Healthy() && !session.options.skipVerify ==>
                (r.Planned? <==> Plannable(selector, embedded, old(slot.base), old(slot.lowers), use, apply))
      ensures r.Planned? && !session.options.skipVerify ==>
                Looked(old(session.matchedReplacement), Visited(embedded.Some?, old(slot.base), old(slot.lowers), apply))
      ensures MarkedTops(session.options, old(session.matchedReduction), session.matchedReduction, if apply then [selector] else [])
    {
      var clear, reduction := DecideReduction(selector, slot.lowers, apply);
      if !clear {
        return Rejected(Overlap);
      }
      if reduction.Some? && reduction.value != "" && session.options.skipVerify {
        r := PlanUnverified(reduction.value, slot, embedded, use);
      } else {
        r := PlanOpened(selector, reduction, slot, embedded, use, apply);
      }
    }

    /** Plan a chain by opening all of its layers. */
    method PlanOpened(selector: Ref, reduction: Option<Ref>, slot: Slot, embedded: Option<Value>, use: Use, apply: bool)
      returns (r: PlanResult)
      requires Valid()
      requires embedded.Some? ==> embedded.value.payload in known
      requires reduction == if apply then ReductionFor(session.options, selector, |slot.lowers| > 0) else None
      requires reduction.Some? ==> !OnChain(session.options.replacements, [selector] + slot.lowers)
      modifies slot, session`matchedReplacement
      ensures Valid() && slot.base == old(slot.base)
      ensures r.Planned? ==> r.chain.slot == slot && r.chain.embedded == embedded.Some? && ChainOk(r.chain, map[])
      ensures r.Planned? && !r.chain.reduced ==> slot.lowers == old(slot.lowers)
      ensures r.Planned? ==> Shaped(r.chain, reduction, old(slot.lowers) != [])
      ensures r.Planned? && !r.chain.reduced && embedded.Some? ==> r.chain.values[0] == embedded.value
      ensures r.Planned? ==> forall k :: (if embedded.Some? then 1 else 0) <= k < |r.chain.values| ==> fresh(r.chain.values[k])
      ensures r.Planned? && r.chain.target.Some? ==> fresh(r.chain.target.value)
      ensures r.Planned? && !session.options.skipVerify ==>
                Original(if embedded.Some? then Some(embedded.value.payload) else None,
                         old(slot.base), old(slot.lowers), r.chain.source.cells)
      ensures r.Planned? && !session.options.skipVerify && use == Image && embedded.None? ==>
                open(old(slot.base)).Found? && r.chain.Config() == open(old(slot.base)).value.config
      ensures Healthy() && !session.options.skipVerify ==>
                (r.Planned? <==> Plannable(selector, embedded, old(slot.base), old(slot.lowers), use, apply))
      ensures r.Planned? ==>
                Looked(old(session.matchedReplacement), Visited(embedded.Some?, old(slot.base), old(slot.lowers), apply))
    {
      var ok, error, values, source := PlanLayers(slot, embedded, use, apply);
      if !ok {
        return Rejected(error);
      }
      if !session.options.skipVerify && Healthy() {
        StackableIsPlannable(selector, reduction, values, source.cells, embedded, slot.base, slot.lowers, use, apply);
      }
      r := PlanStack(reduction, values, source, slot, embedded, use);
    }

    /** What becomes of the opened layers: replaced by a target, flattened, or kept. */
    method PlanStack(reduction: Option<Ref>, values: seq<Value>, source: Source, slot: Slot, embedded: Option<Value>, use: Use)
      returns (r: PlanResult)
      requires Valid() && |values| == |slot.lowers| + 1 && SameSize(Payloads(values))
      requires source in known && source.cells == Layered(Payloads(values)) && (|values| == 1 ==> source == values[0].payload)
      requires forall k :: (if embedded.Some? then 1 else 0) <= k < |values| ==> ValueOk(values[k], map[])
      modifies slot
      ensures Valid() && slot.base == old(slot.base)
      ensures r.Planned? ==> r.chain.slot == slot && r.chain.embedded == embedded.Some? && ChainOk(r.chain, map[])
      ensures r.Planned? ==> r.chain.values == values && Shaped(r.chain, reduction, |values| > 1)
      ensures r.Planned? && !r.chain.reduced ==> slot.lowers == old(slot.lowers)
      ensures r.Planned? && r.chain.target.Some? ==> fresh(r.chain.target.value)
      ensures r.Planned? && !session.options.skipVerify ==> r.chain.source.cells == source.cells
      ensures r.Planned? && !session.options.skipVerify && use == Image ==> r.chain.Config() == values[0].config
      ensures Healthy() && !session.options.skipVerify ==> (r.Planned? <==> Stackable(reduction, values, source.cells, embedded.Some?, use))
    {
      if reduction.Some? && reduction.value != "" {
        r := PlanTarget(reduction.value, values, source, slot, embedded, use);
        return;
      }
      if reduction.Some? {
        slot.lowers := [];
        return Planned(Chain(values, None, source, slot, embedded.Some?, true, |values| > 1));
      }
      var distinct := PositionsDistinct(values, embedded.Some?);
      if !distinct {
        return Rejected(DuplicateRef);
      }
      return Planned(Chain(values, None, source, slot, embedded.Some?, false, false));
    }

    ghost predicate Stackable(reduction: Option<Ref>, values: seq<Value>, cells: seq<Cell>, embedded: bool, use: Use)
      requires values != []
    {
      if reduction.None? then
        forall i, j :: (if embedded then 1 else 0) <= i < j < |values| ==> values[i].raw != values[j].raw
      else
        reduction.value != "" ==>
          TargetFits(TargetOf(reduction.value, |values[0].payload.cells|, use == Memory && embedded), cells, values[0].config, use)
    }

    method DecideReduction(selector: Ref, lowers: seq<Ref>, apply: bool) returns (clear: bool, reduction: Option<Ref>)
      requires Valid()
      modifies session`matchedReduction
      ensures Valid()
      ensures reduction == if apply then ReductionFor(session.options, selector, |lowers| > 0) else None
      ensures clear <==> (reduction.Some? ==> !OnChain(session.options.replacements, [selector] + lowers))
      ensures MarkedTops(session.options, old(session.matchedReduction), session.matchedReduction, if apply then [selector] else [])
    {
      clear, reduction := true, None;
      if apply {
        reduction := session.Reduce(selector, |lowers| > 0);
        if reduction.Some? {
          var overlaps := OverlapsReduction(selector, lowers);
          clear := !overlaps;
        }
      }
    }

    /** The top layer: the embedded value, or the slot's base opened like any other reference. */
    method PlanTop(base: Ref, embedded: Option<Value>, use: Use, apply: bool) returns (r: ValueResult)
      requires Valid()
      requires embedded.Some? ==> embedded.value.payload in known
      modifies session`matchedReplacement
      ensures Valid()
      ensures r.Usable? ==> r.value.payload in known
      ensures embedded.Some? ==> r == Usable(embedded.value)
      ensures r.Usable? && embedded.None? ==> fresh(r.value) && ValueOk(r.value, map[]) && r.value.raw == Mapped(base, apply)
      ensures Healthy() && embedded.None? ==> (r.Usable? <==> Admissible(base, use, apply))
      ensures r.Usable? && embedded.None? && !session.options.skipVerify ==> Equivalent(base, use, r.value)
      ensures Looked(old(session.matchedReplacement), if apply && embedded.None? then [base] else [])
    {
      if embedded.Some? {
        r := Usable(embedded.value);
      } else {
        r := ChangedValue(base, use, apply);
      }
    }

    /** A top and lowers as opened make up the layers of the chain. */
    lemma LayersStack(values: seq<Value>, top: Value, rest: seq<Value>, embedded: Option<Value>, base: Ref, lowers: seq<Ref>, apply: bool)
      requires |rest| == |lowers| && |values| == |lowers| + 1 && values == [top] + rest && top.payload in known
      requires embedded.Some? ==> top == embedded.value
      requires embedded.None? ==> ValueOk(top, map[]) && top.raw == Mapped(base, apply)
      requires forall k :: 0 <= k < |rest| ==>
                 LayerOk(rest[k], lowers[k], |top.payload.cells|) && rest[k].raw == Mapped(lowers[k], apply) && rest[k].payload in known
      ensures Named(values, embedded.Some?, base, lowers, apply)
      ensures SameSize(Payloads(values))
      ensures forall k :: 0 <= k < |values| ==> values[k].payload in known
      ensures forall k :: (if embedded.Some? then 1 else 0) <= k < |values| ==> ValueOk(values[k], map[])
      ensures forall k :: 0 <= k < |lowers| ==> LayerAt(values, lowers, k)
    {
      assert values[0] == top;
      forall k | 0 < k < |values|
        ensures ValueOk(values[k], map[]) && values[k].payload in known && |values[k].payload.cells| == |top.payload.cells|
      {
        assert values[k] == rest[k - 1];
      }
      forall k | 0 <= k < |lowers| ensures LayerAt(values, lowers, k) && NamedAt(values, lowers, apply, k) {
        assert values[k + 1] == rest[k];
      }
    }

    /** Open every layer, replaced where a rule says so: the top, and the rest below it. */
    method OpenLayers(slot: Slot, embedded: Option<Value>, use: Use, apply: bool) returns (t: ValueResult, rest: seq<Value>)
      requires Valid()
      requires embedded.Some? ==> embedded.value.payload in known
      modifies session`matchedReplacement
      ensures Valid()
      ensures t.Usable? ==> t.value.payload in known && |rest| == |slot.lowers|
      ensures t.Usable? && embedded.Some? ==> t.value == embedded.value
      ensures t.Usable? && embedded.None? ==>
                fresh(t.value) && ValueOk(t.value, map[]) && t.value.raw == Mapped(slot.base, apply) &&
                (!session.options.skipVerify ==> Equivalent(slot.base, use, t.value))
      ensures t.Usable? ==> forall k :: 0 <= k < |rest| ==>
                && fresh(rest[k]) && LayerOk(rest[k], slot.lowers[k], |t.value.payload.cells|)
                && rest[k].raw == Mapped(slot.lowers[k], apply) && rest[k].payload in known
      ensures Healthy() ==> (t.Usable? <==> LayersFit(if embedded.Some? then Some(embedded.value.payload) else None,
                                                      slot.base, slot.lowers, use, apply))
      ensures t.Usable? ==> Looked(old(session.matchedReplacement), Visited(embedded.Some?, slot.base, slot.lowers, apply))
    {
      t := PlanTop(slot.base, embedded, use, apply);
      rest := [];
      if t.Usable? {
        var ok, error;
        ghost var seen := session.matchedReplacement;
        ok, error, rest := PlanLowers(t.value, slot.lowers, use, apply);
        if ok {
          VisitedTogether(old(session.matchedReplacement), seen, session.matchedReplacement, embedded.Some?, slot.base, slot.lowers, apply);
        }
        if !ok {
          t := Unusable(error);
        }
      }
    }

    /** Open every layer and stack them. */
    method PlanLayers(slot: Slot, embedded: Option<Value>, use: Use, apply: bool)
      returns (ok: bool, error: PlanError, values: seq<Value>, source: Source)
      requires Valid()
      requires embedded.Some? ==> embedded.value.payload in known
      modifies session`matchedReplacement
      ensures Valid()
      ensures ok ==>
                && |values| == |slot.lowers| + 1 && SameSize(Payloads(values))
                && source in known && source.cells == Layered(Payloads(values))
                && (|values| == 1 ==> source == values[0].payload)
                && (embedded.Some? ==> values[0] == embedded.value)
                && (forall k :: (if embedded.Some? then 1 else 0) <= k < |values| ==>
                      fresh(values[k]) && ValueOk(values[k], map[]))
                && (!session.options.skipVerify ==>
                      Original(if embedded.Some? then Some(embedded.value.payload) else None,
                               slot.base, slot.lowers, source.cells))
      ensures ok ==> Named(values, embedded.Some?, slot.base, slot.lowers, apply)
      ensures ok && embedded.None? && !session.options.skipVerify ==> Equivalent(slot.base, use, values[0])
      ensures ok ==> Looked(old(session.matchedReplacement), Visited(embedded.Some?, slot.base, slot.lowers, apply))
      ensures Healthy() ==> (ok <==> LayersFit(if embedded.Some? then Some(embedded.value.payload) else None,
                                               slot.base, slot.lowers, use, apply))
    {
      source := Source([], _ => NoRun, NoCommitment);
      var t, rest := OpenLayers(slot, embedded, use, apply);
      if t.Unusable? {
        return false, t.error, [], source;
      }
      ok, error := true, Unavailable;
      values := [t.value] + rest;
      LayersStack(values, t.value, rest, embedded, slot.base, slot.lowers, apply);
      source := LayerValues(values);
      if !session.options.skipVerify {
        LayersAreOriginal(values, embedded, slot.base, slot.lowers);
      }
    }

    /** The values stand for the chain's references, mapped by the rules; an embedded top stands for none. */
    ghost predicate Named(values: seq<Value>, embedded: bool, base: Ref, lowers: seq<Ref>, apply: bool) {
      && |values| == |lowers| + 1
      && (!embedded ==> values[0].raw == Mapped(base, apply))
      && (forall k :: 0 <= k < |lowers| ==> NamedAt(values, lowers, apply, k))
    }

    ghost predicate NamedAt(values: seq<Value>, lowers: seq<Ref>, apply: bool, k: int)
      requires 0 <= k < |lowers| && |values| == |lowers| + 1
    {
      values[k + 1].raw == Mapped(lowers[k], apply)
    }

    /** Layer k + 1 stands for lower reference k. */
    ghost predicate LayerAt(values: seq<Value>, lowers: seq<Ref>, k: int)
      requires 0 <= k < |lowers| && |values| == |lowers| + 1
      reads values[k + 1]
    {
      LayerOk(values[k + 1], lowers[k], |values[0].payload.cells|)
    }

    /** Verified layers stack up to what the original references read. */
    lemma LayersAreOriginal(values: seq<Value>, embedded: Option<Value>, base: Ref, lowers: seq<Ref>)
      requires !session.options.skipVerify && |values| == |lowers| + 1 && SameSize(Payloads(values))
      requires embedded.Some? ==> values[0] == embedded.value
      requires embedded.None? ==> open(base).Found? && open(base).value.payload.cells == values[0].payload.cells
      requires forall k :: 0 <= k < |lowers| ==> LayerAt(values, lowers, k)
      ensures Original(if embedded.Some? then Some(embedded.value.payload) else None, base, lowers, Layered(Payloads(values)))
    {
      forall k | 0 <= k < |lowers|
        ensures open(lowers[k]).Found? && open(lowers[k]).value.payload.cells == values[k + 1].payload.cells
      {
        assert LayerAt(values, lowers, k);
      }
      var top := if embedded.Some? then embedded.value.payload.cells else open(base).value.payload.cells;
      assert [top] + OpenAll(lowers) == Payloads(values);
    }

    /** The caller vouches for the target; only an embedded top's size is still checked. */
    method PlanUnverified(target: Ref, slot: Slot, embedded: Option<Value>, use: Use) returns (r: PlanResult)
      requires Valid() && session.options.skipVerify
      modifies slot
      ensures Valid() && slot.base == old(slot.base)
      ensures r.Planned? ==>
                && r.chain.slot == slot && r.chain.embedded == embedded.Some? && r.chain.reduced && ChainOk(r.chain, map[])
                && r.chain.target.Some? && fresh(r.chain.target.value) && r.chain.values == [r.chain.target.value]
                && r.chain.target.value.raw == target
                && (embedded.Some? ==> |r.chain.source.cells| == |embedded.value.payload.cells|)
    {
      var v;
      if use == Memory && embedded.Some? {
        v := MemoryTarget(target, |embedded.value.payload.cells|);
      } else {
        v := OpenValue(target);
      }
      if v.Unusable? {
        return Rejected(v.error);
      }
      if embedded.Some? && |v.value.payload.cells| != |embedded.value.payload.cells| {
        return Rejected(CapacityDiffers);
      }
      slot.lowers := [];
      return Planned(Chain([v.value], Some(v.value), v.value.payload, slot, embedded.Some?, true, false));
    }

    /** A target is accepted when it reads the given cells and, for an image, has the top's configuration. */
    ghost predicate TargetFits(found: OpenResult, cells: seq<Cell>, config: nat, use: Use) {
      found.Found? && found.value.payload.cells == cells && (use == Image ==> found.value.config == config)
    }

    /** An explicit reduction target has to read what the layers read together. */
    method PlanTarget(target: Ref, values: seq<Value>, source: Source, slot: Slot, embedded: Option<Value>, use: Use)
      returns (r: PlanResult)
      requires Valid() && values != [] && source in known
      requires forall k :: (if embedded.Some? then 1 else 0) <= k < |values| ==> ValueOk(values[k], map[])
      modifies slot
      ensures Valid() && slot.base == old(slot.base)
      ensures r.Planned? ==>
                && r.chain.slot == slot && r.chain.embedded == embedded.Some? && r.chain.reduced && ChainOk(r.chain, map[])
                && r.chain.values == values && r.chain.target.Some? && fresh(r.chain.target.value)
                && r.chain.target.value.raw == target
                && (!session.options.skipVerify ==> r.chain.source.cells == source.cells)
                && (!session.options.skipVerify && use == Image ==> r.chain.target.value.config == values[0].config)
      ensures Healthy() && !session.options.skipVerify ==>
                (r.Planned? <==>
                   TargetFits(TargetOf(target, |values[0].payload.cells|, use == Memory && embedded.Some?), source.cells, values[0].config, use))
    {
      var v;
      if use == Memory && embedded.Some? {
        v := MemoryTarget(target, |values[0].payload.cells|);
      } else {
        v := OpenValue(target);
      }
      if v.Unusable? {
        return Rejected(v.error);
      }
      if |v.value.payload.cells| != |source.cells| {
        return Rejected(CapacityDiffers);
      }
      if !session.options.skipVerify {
        assert v.value.payload in known && CommitmentsSound(source, v.value.payload);
        assert Healthy() ==> FaultFree(source) && FaultFree(v.value.payload);
        var verdict := CompareSparseStreams(source, v.value.payload, cancelled);
        if verdict != Same || (use == Image && values[0].config != v.value.config) {
          return Rejected(NotEquivalent);
        }
      }
      slot.lowers := [];
      return Planned(Chain(values, Some(v.value), v.value.payload, slot, embedded.Some?, true, false));
    }

    lemma ResolveGrows(before: map<Ref, Object>, after: map<Ref, Object>, ref: Ref)
      requires Trusted() && Grows(before, after) && Resolve(before, ref).Some?
      requires forall r :: r in after ==> target.name(after[r]) == r
      ensures Resolve(after, ref) == Resolve(before, ref)
    {
      if ref in after && ref !in before {
        assert NameMeans(after[ref], ref);
      }
    }

    lemma ConfigGrows(before: map<Ref, Object>, after: map<Ref, Object>, ref: Ref)
      requires Trusted() && Grows(before, after) && Resolve(before, ref).Some?
      requires forall r :: r in after ==> target.name(after[r]) == r
      ensures Resolve(after, ref).Some? && ConfigAt(after, ref) == ConfigAt(before, ref)
    {
      ResolveGrows(before, after, ref);
      if ref in after && ref !in before {
        assert NameMeans(after[ref], ref);
      }
    }

    /** Later publications never change what an emitted chain reads. */
    lemma ReadsGrows(before: map<Ref, Object>, after: map<Ref, Object>, base: Ref, lowers: seq<Ref>, cells: seq<Cell>)
      requires Trusted() && Grows(before, after) && forall r :: r in after ==> target.name(after[r]) == r
      requires Reads(before, Resolve(before, base), lowers, cells)
      ensures Reads(after, Resolve(after, base), lowers, cells)
    {
      ResolveGrows(before, after, base);
      forall k | 0 <= k < |lowers| ensures Resolve(after, lowers[k]) == Resolve(before, lowers[k]) {
        ResolveGrows(before, after, lowers[k]);
      }
      assert ResolveAll(after, lowers) == ResolveAll(before, lowers);
    }

    lemma LowersGrow(before: map<Ref, Object>, after: map<Ref, Object>, lowers: seq<Ref>)
      requires Trusted() && Grows(before, after) && forall r :: r in after ==> target.name(after[r]) == r
      requires forall k :: 0 <= k < |lowers| ==> Resolve(before, lowers[k]).Some?
      ensures forall k :: 0 <= k < |lowers| ==> Resolve(after, lowers[k]) == Resolve(before, lowers[k])
      ensures ResolveAll(after, lowers) == ResolveAll(before, lowers)
    {
      forall k | 0 <= k < |lowers| ensures Resolve(after, lowers[k]) == Resolve(before, lowers[k]) {
        ResolveGrows(before, after, lowers[k]);
      }
    }

    /** Publish a value unless its reference is portable or it already was; the result reads the value. */
    method EmitValue(v: Value) returns (r: Option<Ref>)
      requires Valid() && ValueOk(v, target.objects)
      modifies target, v
      ensures Valid() && Grows(old(target.objects), target.objects) && ValueOk(v, target.objects)
      ensures r.Some? ==> Resolve(target.objects, r.value) == Some(v.payload.cells) && ConfigAt(target.objects, r.value) == v.config
      ensures r.None? ==> exists i: nat :: target.fails(i)
      ensures r.Some? && !v.force && old(v.published) == "" ==> r.value == v.raw && target.objects == old(target.objects)
    {
      if v.published != "" {
        return Some(v.published);
      }
      if !v.force {
        if v.raw in target.objects {
          assert NameMeans(target.objects[v.raw], v.raw);
        }
        return Some(v.raw);
      }
      r := target.Put(Object(v.payload.cells, v.config));
      if r.Some? {
        v.published := r.value;
      }
    }

    /** Install the final references of a planned chain; on success the slot reads what the plan reads. */
    method EmitChain(c: Chain) returns (ok: bool)
      requires Valid() && ChainOk(c, target.objects)
      modifies c.slot, target, c.Emitted()
      ensures Valid() && Grows(old(target.objects), target.objects)
      ensures !ok ==> exists i: nat :: target.fails(i)
      ensures ok ==> Reads(target.objects,
                           if c.embedded then Some(c.TopSource().cells) else Resolve(target.objects, c.slot.base),
                           c.slot.lowers, c.source.cells)
      ensures ok && !c.embedded ==>
                ConfigAt(target.objects, c.slot.base) == if c.automatic then NO_CONFIG else c.Config()
    {
      if c.reduced {
        ok := EmitReduced(c);
      } else {
        ok := EmitLayers(c);
        if ok {
          KeptReads(c, target.objects, c.slot.base, c.slot.lowers);
        }
      }
    }

    /** Every layer to be emitted is in order. */
    ghost predicate LayersOk(c: Chain, objects: map<Ref, Object>)
      reads c.values
    {
      forall k :: (if c.embedded then 1 else 0) <= k < |c.values| ==> ValueOk(c.values[k], objects)
    }

    /** Emits one layer; those below it stay installed. */
    method EmitLayer(c: Chain, i: nat) returns (r: Option<Ref>)
      requires Valid() && i < |c.values| && (c.embedded ==> i > 0) && LayersOk(c, target.objects)
      requires |c.slot.lowers| == |c.values| - 1 && Installed(c, i, target.objects, c.slot.lowers)
      modifies target, c.Emitted()
      ensures Valid() && Grows(old(target.objects), target.objects) && LayersOk(c, target.objects)
      ensures r.Some? ==> Resolve(target.objects, r.value) == Some(c.values[i].payload.cells)
      ensures r.Some? ==> ConfigAt(target.objects, r.value) == c.values[i].config
      ensures r.None? ==> exists i: nat :: target.fails(i)
      ensures Installed(c, i, target.objects, c.slot.lowers)
    {
      ghost var before := target.objects;
      r := EmitValue(c.values[i]);
      InstalledGrows(c, i, before, target.objects, c.slot.lowers);
    }

    /** Emits the layers bottom up, installing each reference in its slot; an embedded top is left to the caller. */
    method EmitLayers(c: Chain) returns (ok: bool)
      requires Valid() && ChainOk(c, target.objects) && !c.reduced
      modifies c.slot, target, c.Emitted()
      ensures Valid() && Grows(old(target.objects), target.objects)
      ensures !ok ==> exists i: nat :: target.fails(i)
      ensures ok ==> |c.slot.lowers| == |c.values| - 1 && Installed(c, 0, target.objects, c.slot.lowers)
      ensures ok && !c.embedded ==> BaseInstalled(c, target.objects, c.slot.base)
    {
      var i := |c.values|;
      while i > 0
        invariant Valid() && Grows(old(target.objects), target.objects)
        invariant 0 <= i <= |c.values| && |c.slot.lowers| == |c.values| - 1
        invariant LayersOk(c, target.objects)
        invariant Installed(c, if i == 0 then 0 else i - 1, target.objects, c.slot.lowers)
        invariant i == 0 && !c.embedded ==> BaseInstalled(c, target.objects, c.slot.base)
      {
        i := i - 1;
        if i == 0 && c.embedded {
          continue;
        }
        var ref := EmitLayer(c, i);
        if ref.None? {
          return false;
        }
        if i == 0 {
          c.slot.base := ref.value;
        } else {
          InstalledNext(c, i, target.objects, c.slot.lowers, ref.value);
          c.slot.lowers := c.slot.lowers[i - 1 := ref.value];
        }
      }
      return true;
    }

    /** The base reads the top layer and has its image configuration. */
    ghost predicate BaseInstalled(c: Chain, objects: map<Ref, Object>, base: Ref)
      requires c.values != []
    {
      Resolve(objects, base) == Some(c.values[0].payload.cells) && ConfigAt(objects, base) == c.values[0].config
    }

    /** The lower references from the given one down already read their layers. */
    ghost predicate Installed(c: Chain, from: nat, objects: map<Ref, Object>, lowers: seq<Ref>)
      requires |lowers| == |c.values| - 1
    {
      forall k :: from <= k < |lowers| ==> Resolve(objects, lowers[k]) == Some(c.values[k + 1].payload.cells)
    }

    lemma InstalledNext(c: Chain, i: nat, objects: map<Ref, Object>, lowers: seq<Ref>, ref: Ref)
      requires |lowers| == |c.values| - 1 && 0 < i < |c.values| && Installed(c, i, objects, lowers)
      requires Resolve(objects, ref) == Some(c.values[i].payload.cells)
      ensures Installed(c, i - 1, objects, lowers[i - 1 := ref])
    {
    }

    lemma InstalledGrows(c: Chain, from: nat, before: map<Ref, Object>, after: map<Ref, Object>, lowers: seq<Ref>)
      requires |lowers| == |c.values| - 1 && Installed(c, from, before, lowers)
      requires Trusted() && Grows(before, after) && forall r :: r in after ==> target.name(after[r]) == r
      ensures Installed(c, from, after, lowers)
    {
      forall k | from <= k < |lowers| ensures Resolve(after, lowers[k]) == Some(c.values[k + 1].payload.cells) {
        ResolveGrows(before, after, lowers[k]);
      }
    }

    lemma KeptReads(c: Chain, objects: map<Ref, Object>, base: Ref, lowers: seq<Ref>)
      requires c.values != [] && |lowers| == |c.values| - 1 && !c.reduced
      requires SameSize(Payloads(c.values)) && c.source.cells == Layered(Payloads(c.values))
      requires Installed(c, 0, objects, lowers)
      requires !c.embedded ==> Resolve(objects, base) == Some(c.values[0].payload.cells)
      ensures Reads(objects, if c.embedded then Some(c.TopSource().cells) else Resolve(objects, base), lowers, c.source.cells)
    {
      assert [c.values[0].payload.cells] + ResolveAll(objects, lowers) == Payloads(c.values);
    }

    lemma FlatReads(objects: map<Ref, Object>, top: Option<seq<Cell>>, cells: seq<Cell>)
      requires top == Some(cells)
      ensures Reads(objects, top, [], cells)
    {
      LayeredSingle(cells);
      assert [cells] + ResolveAll(objects, []) == [cells];
    }

    method EmitReduced(c: Chain) returns (ok: bool)
      requires Valid() && ChainOk(c, target.objects) && c.reduced
      modifies c.slot`base, target, c.Emitted()
      ensures Valid() && Grows(old(target.objects), target.objects) && c.slot.lowers == []
      ensures !ok ==> exists i: nat :: target.fails(i)
      ensures ok ==> Reads(target.objects,
                           if c.embedded then Some(c.source.cells) else Resolve(target.objects, c.slot.base),
                           [], c.source.cells)
      ensures ok && !c.embedded ==>
                ConfigAt(target.objects, c.slot.base) == if c.automatic then NO_CONFIG else c.Config()
    {
      if c.embedded {
        FlatReads(target.objects, Some(c.source.cells), c.source.cells);
        return true;
      }
      var ref;
      if c.automatic {
        ref := target.Put(Object(c.source.cells, NO_CONFIG));
      } else if c.target.Some? {
        ref := EmitValue(c.target.value);
      } else {
        ref := EmitValue(c.values[0]);
      }
      if ref.None? {
        return false;
      }
      c.slot.base := ref.value;
      FlatReads(target.objects, Resolve(target.objects, c.slot.base), c.source.cells);
      return true;
    }

    /**
     Plan one chain and emit it: with verification on, whatever rule applied, the rewritten references read at the
     destination, cell by cell, what the original references read, and an image base, which has no layers below it,
     keeps its configuration.
     */
    method RewriteChain(selector: Ref, slot: Slot, embedded: Option<Value>, use: Use, apply: bool)
      returns (r: PlanResult, emitted: bool)
      requires Valid()
      requires embedded.Some? ==> embedded.value.payload in known
      modifies slot, session, target, if embedded.Some? then {embedded.value} else {}
      ensures Valid()
      ensures r.Planned? ==> r.chain.values != []
      ensures Healthy() && !session.options.skipVerify ==>
                (r.Planned? <==> Plannable(selector, embedded, old(slot.base), old(slot.lowers), use, apply))
      ensures r.Planned? && !emitted ==> exists i: nat :: target.fails(i)
      ensures r.Planned? && emitted && !session.options.skipVerify ==>
                && Original(if embedded.Some? then Some(embedded.value.payload) else None,
                            old(slot.base), old(slot.lowers), r.chain.source.cells)
                && Reads(target.objects,
                         if embedded.Some? then Some(r.chain.TopSource().cells) else Resolve(target.objects, slot.base),
                         slot.lowers, r.chain.source.cells)
      ensures r.Planned? && emitted && !session.options.skipVerify && use == Image && embedded.None? ==>
                && open(old(slot.base)).Found?
                && (old(slot.lowers) == [] ==> ConfigAt(target.objects, slot.base) == open(old(slot.base)).value.config)
                && (ConfigAt(target.objects, slot.base) == open(old(slot.base)).value.config <==>
                      (Flattened(selector, old(slot.lowers), apply) ==> open(old(slot.base)).value.config == NO_CONFIG))
    {
      emitted := false;
      r := PlanChain(selector, slot, embedded, use, apply);
      if r.Planned? {
        emitted := EmitChain(r.chain);
      }
    }

    // ----- A whole configuration -----

    /** The requests name distinct slots. */
    ghost predicate RequestsOk(requests: seq<Request>) {
      && (forall i, j :: 0 <= i < j < |requests| ==> requests[i].slot != requests[j].slot)
      && (forall i :: 0 <= i < |requests| && requests[i].embedded.Some? ==> requests[i].embedded.value.payload in known)
    }

    /** The chains are for different slots and would publish different values. */
    ghost predicate Separate(chains: seq<Chain>) {
      forall i, j :: 0 <= i < j < |chains| ==> chains[i].slot != chains[j].slot && chains[i].Emitted() !! chains[j].Emitted()
    }

    /** The chain's references read at the destination what its plan reads, and its base has the planned configuration. */
    ghost predicate ChainReads(c: Chain, objects: map<Ref, Object>)
      reads c.slot
    {
      && c.values != []
      && Reads(objects, if c.embedded then Some(c.TopSource().cells) else Resolve(objects, c.slot.base), c.slot.lowers, c.source.cells)
      && (!c.embedded ==> ConfigAt(objects, c.slot.base) == if c.automatic then NO_CONFIG else c.Config())
    }

    /** Later publications neither spoil a plan nor change what an emitted chain reads. */
    lemma ChainGrows(c: Chain, before: map<Ref, Object>, after: map<Ref, Object>)
      requires Trusted() && Grows(before, after) && forall r :: r in after ==> target.name(after[r]) == r
      ensures ChainOk(c, before) ==> ChainOk(c, after)
      ensures ChainReads(c, before) ==> ChainReads(c, after)
    {
      if ChainReads(c, before) {
        if c.embedded {
          LowersGrow(before, after, c.slot.lowers);
        } else {
          ReadsGrows(before, after, c.slot.base, c.slot.lowers, c.source.cells);
          ConfigGrows(before, after, c.slot.base);
        }
      }
    }

    /** The references of the requests' chains, as the configuration has them. */
    ghost function Originals(requests: seq<Request>): (r: seq<(Ref, seq<Ref>)>)
      reads set i | 0 <= i < |requests| :: requests[i].slot
      ensures |r| == |requests| && forall i :: 0 <= i < |r| ==> r[i] == (requests[i].slot.base, requests[i].slot.lowers)
    {
      if requests == [] then [] else Originals(requests[..|requests| - 1]) + [(requests[|requests| - 1].slot.base, requests[|requests| - 1].slot.lowers)]
    }

    ghost predicate RequestPlannable(q: Request, original: (Ref, seq<Ref>)) {
      Plannable(q.selector, q.embedded, original.0, original.1, q.use, true)
    }

    /** The first n requests can be planned. */
    ghost predicate AllPlannable(requests: seq<Request>, originals: seq<(Ref, seq<Ref>)>, n: nat)
      requires n <= |requests| == |originals|
    {
      forall i :: 0 <= i < n ==> RequestPlannable(requests[i], originals[i])
    }

    /** What planning a request says of its original references, from the flags before it. */
    ghost predicate Told(q: Request, original: (Ref, seq<Ref>), r: PlanResult, flags: seq<bool>, cuts: seq<bool>)
      reads session
    {
      !session.options.skipVerify ==>
        && (Healthy() ==> (r.Planned? <==> RequestPlannable(q, original)))
        && (r.Planned? ==>
              && PlannedFrom(q, original, r.chain)
              && Looked(flags, Visited(q.embedded.Some?, original.0, original.1, true))
              && MarkedTops(session.options, cuts, session.matchedReduction, [q.selector]))
    }

    method PlanRequest(q: Request) returns (r: PlanResult)
      requires Valid() && (q.embedded.Some? ==> q.embedded.value.payload in known)
      modifies q.slot, session
      ensures Valid()
      ensures r.Planned? ==> r.chain.slot == q.slot && ChainOk(r.chain, map[]) && fresh(r.chain.Emitted())
      ensures Told(q, old((q.slot.base, q.slot.lowers)), r, old(session.matchedReplacement), old(session.matchedReduction))
    {
      r := PlanChain(q.selector, q.slot, q.embedded, q.use, true);
    }

    /** The references the first n plans look up, and the tops they ask to reduce. */
    ghost function AllVisited(requests: seq<Request>, originals: seq<(Ref, seq<Ref>)>, n: nat): seq<Ref>
      requires n <= |requests| == |originals|
    {
      if n == 0 then []
      else AllVisited(requests, originals, n - 1) + Visited(requests[n - 1].embedded.Some?, originals[n - 1].0, originals[n - 1].1, true)
    }

    ghost function Selectors(requests: seq<Request>, n: nat): seq<Ref>
      requires n <= |requests|
    {
      if n == 0 then [] else Selectors(requests, n - 1) + [requests[n - 1].selector]
    }

    /** The flags after planning the first n chains, from the given ones. */
    ghost predicate FlagsAfter(requests: seq<Request>, originals: seq<(Ref, seq<Ref>)>, n: nat, replacements: seq<bool>, reductions: seq<bool>)
      requires n <= |requests| == |originals|
      reads session
    {
      && Looked(replacements, AllVisited(requests, originals, n))
      && MarkedTops(session.options, reductions, session.matchedReduction, Selectors(requests, n))
    }

    /** Every rule was matched before or applies to one of the configuration's references. */
    ghost predicate WillMatch(requests: seq<Request>, originals: seq<(Ref, seq<Ref>)>, replacements: seq<bool>, reductions: seq<bool>)
      requires |requests| == |originals|
    {
      && (forall k :: 0 <= k < |replacements| ==>
            replacements[k] || HitsAny(session.options.replacements, AllVisited(requests, originals, |requests|), k))
      && (forall k :: 0 <= k < |reductions| ==>
            reductions[k] || Reduces(session.options, Selectors(requests, |requests|), k))
    }

    lemma SeparateNext(chains: seq<Chain>, c: Chain)
      requires Separate(chains)
      requires forall i :: 0 <= i < |chains| ==> chains[i].slot != c.slot && chains[i].Emitted() !! c.Emitted()
      ensures Separate(chains + [c])
    {
    }

    /** The first chains are planned for their requests' slots, each with values of its own among the owned ones. */
    ghost predicate Prepared(requests: seq<Request>, chains: seq<Chain>, owned: set<Value>)
      reads set i, o | 0 <= i < |chains| && o in chains[i].Parts() :: o
    {
      && |chains| <= |requests| && Separate(chains)
      && forall i :: 0 <= i < |chains| ==>
           chains[i].slot == requests[i].slot && ChainOk(chains[i], map[]) && chains[i].Emitted() <= owned
    }

    lemma PreparedNext(requests: seq<Request>, chains: seq<Chain>, c: Chain, owned: set<Value>)
      requires |chains| < |requests| && Prepared(requests, chains, owned)
      requires c.slot == requests[|chains|].slot && ChainOk(c, map[]) && c.Emitted() !! owned
      requires forall i :: 0 <= i < |chains| ==> chains[i].slot != c.slot
      ensures Prepared(requests, chains + [c], owned + c.Emitted())
    {
      SeparateNext(chains, c);
    }

    /** What planning the first chains has shown, from the flags it started with. */
    ghost predicate Progress(requests: seq<Request>, originals: seq<(Ref, seq<Ref>)>, chains: seq<Chain>, flags: seq<bool>, cuts: seq<bool>)
      reads session
    {
      && AllPlannedFrom(requests, originals, chains)
      && FlagsAfter(requests, originals, |chains|, flags, cuts)
      && (Healthy() ==> AllPlannable(requests, originals, |chains|))
    }

    lemma ProgressNext(requests: seq<Request>, originals: seq<(Ref, seq<Ref>)>, chains: seq<Chain>, c: Chain,
                       flags: seq<bool>, cuts: seq<bool>, seen: seq<bool>, reduced: seq<bool>)
      requires AllPlannedFrom(requests, originals, chains) && |chains| < |requests|
      requires Marked(session.options.replacements, flags, seen, AllVisited(requests, originals, |chains|))
      requires MarkedTops(session.options, cuts, reduced, Selectors(requests, |chains|))
      requires Healthy() ==> AllPlannable(requests, originals, |chains| + 1)
      requires PlannedFrom(requests[|chains|], originals[|chains|], c)
      requires Looked(seen, Visited(requests[|chains|].embedded.Some?, originals[|chains|].0, originals[|chains|].1, true))
      requires MarkedTops(session.options, reduced, session.matchedReduction, [requests[|chains|].selector])
      ensures Progress(requests, originals, chains + [c], flags, cuts)
    {
      FlagsThen(requests, originals, |chains|, flags, cuts, seen, reduced);
      AllPlannedNext(requests, originals, chains, c);
    }

    lemma PlannableNext(requests: seq<Request>, originals: seq<(Ref, seq<Ref>)>, n: nat)
      requires n < |requests| == |originals|
      requires Healthy() ==> AllPlannable(requests, originals, n) && RequestPlannable(requests[n], originals[n])
      ensures Healthy() ==> AllPlannable(requests, originals, n + 1)
    {
    }

    lemma AllPlannedNext(requests: seq<Request>, originals: seq<(Ref, seq<Ref>)>, chains: seq<Chain>, c: Chain)
      requires AllPlannedFrom(requests, originals, chains) && |chains| < |requests|
      requires PlannedFrom(requests[|chains|], originals[|chains|], c)
      ensures AllPlannedFrom(requests, originals, chains + [c])
    {
    }

    /** Plans the next chain; those planned before are not touched. */
    method PlanNext(requests: seq<Request>, chains: seq<Chain>, ghost owned: set<Value>) returns (r: PlanResult)
      requires Valid() && RequestsOk(requests) && |chains| < |requests| && Prepared(requests, chains, owned)
      modifies requests[|chains|].slot, session
      ensures Valid()
      ensures r.Planned? ==> fresh(r.chain.Emitted()) && Prepared(requests, chains + [r.chain], owned + r.chain.Emitted())
      ensures Told(requests[|chains|], old((requests[|chains|].slot.base, requests[|chains|].slot.lowers)), r,
                   old(session.matchedReplacement), old(session.matchedReduction))
    {
      assert forall i :: 0 <= i < |chains| ==> chains[i].slot != requests[|chains|].slot;
      r := PlanRequest(requests[|chains|]);
      if r.Planned? {
        PreparedNext(requests, chains, r.chain, owned);
      }
    }

    /** Plans the next chain and keeps account of what that shows. */
    method PlanCounted(requests: seq<Request>, chains: seq<Chain>, ghost owned: set<Value>,
                       ghost originals: seq<(Ref, seq<Ref>)>, ghost flags: seq<bool>, ghost cuts: seq<bool>) returns (r: PlanResult)
      requires Valid() && RequestsOk(requests) && |chains| < |requests| && Prepared(requests, chains, owned)
      requires |originals| == |requests| && originals[|chains|] == (requests[|chains|].slot.base, requests[|chains|].slot.lowers)
      requires !session.options.skipVerify ==> Progress(requests, originals, chains, flags, cuts)
      modifies requests[|chains|].slot, session
      ensures Valid()
      ensures r.Planned? ==> fresh(r.chain.Emitted()) && Prepared(requests, chains + [r.chain], owned + r.chain.Emitted())
      ensures r.Planned? && !session.options.skipVerify ==> Progress(requests, originals, chains + [r.chain], flags, cuts)
      ensures Healthy() && !session.options.skipVerify ==> (r.Planned? <==> RequestPlannable(requests[|chains|], originals[|chains|]))
    {
      ghost var seen, reduced := session.matchedReplacement, session.matchedReduction;
      r := PlanNext(requests, chains, owned);
      if r.Planned? && !session.options.skipVerify {
        PlannableNext(requests, originals, |chains|);
        ProgressNext(requests, originals, chains, r.chain, flags, cuts, seen, reduced);
      }
    }

    /** Plans every chain; nothing is published yet. */
    method PlanAll(requests: seq<Request>) returns (ok: bool, chains: seq<Chain>, ghost owned: set<Value>)
      requires Valid() && RequestsOk(requests)
      modifies session, set i | 0 <= i < |requests| :: requests[i].slot
      ensures Valid()
      ensures ok ==> |chains| == |requests| && Prepared(requests, chains, owned) && fresh(owned)
      ensures ok && !session.options.skipVerify ==>
                Progress(requests, old(Originals(requests)), chains, old(session.matchedReplacement), old(session.matchedReduction))
      ensures Healthy() && !session.options.skipVerify ==> (ok <==> AllPlannable(requests, old(Originals(requests)), |requests|))
    {
      chains, owned := [], {};
      ghost var originals := Originals(requests);
      ghost var flags, cuts := session.matchedReplacement, session.matchedReduction;
      for n := 0 to |requests|
        invariant Valid() && |chains| == n && Prepared(requests, chains, owned) && fresh(owned)
        invariant forall i :: n <= i < |requests| ==> (requests[i].slot.base, requests[i].slot.lowers) == originals[i]
        invariant !session.options.skipVerify ==> Progress(requests, originals, chains, flags, cuts)
      {
        var r := PlanCounted(requests, chains, owned, originals, flags, cuts);
        if r.Rejected? {
          return false, [], {};
        }
        chains, owned := chains + [r.chain], owned + r.chain.Emitted();
      }
      ok := true;
    }

    lemma FlagsThen(requests: seq<Request>, originals: seq<(Ref, seq<Ref>)>, n: nat, flags: seq<bool>, cuts: seq<bool>, seen: seq<bool>, reduced: seq<bool>)
      requires n < |requests| == |originals|
      requires Marked(session.options.replacements, flags, seen, AllVisited(requests, originals, n))
      requires MarkedTops(session.options, cuts, reduced, Selectors(requests, n))
      requires Looked(seen, Visited(requests[n].embedded.Some?, originals[n].0, originals[n].1, true))
      requires MarkedTops(session.options, reduced, session.matchedReduction, [requests[n].selector])
      ensures FlagsAfter(requests, originals, n + 1, flags, cuts)
    {
      MarkedThen(session.options.replacements, flags, seen, session.matchedReplacement,
                 AllVisited(requests, originals, n), Visited(requests[n].embedded.Some?, originals[n].0, originals[n].1, true));
      MarkedTopsThen(session.options, cuts, reduced, session.matchedReduction, Selectors(requests, n), requests[n].selector);
    }

    /** The planned chain reads what its request's references read, and an image base's configuration is the original's. */
    ghost predicate PlannedFrom(q: Request, original: (Ref, seq<Ref>), c: Chain) {
      && c.values != [] && c.embedded == q.embedded.Some?
      && (c.automatic <==> Flattened(q.selector, original.1, true))
      && Original(if q.embedded.Some? then Some(q.embedded.value.payload) else None, original.0, original.1, c.source.cells)
      && (q.use == Image && q.embedded.None? ==> open(original.0).Found? && c.Config() == open(original.0).value.config)
    }

    /** An image base has at the destination the configuration it had; it has no layers below it. */
    ghost predicate ImageKept(q: Request, original: (Ref, seq<Ref>), objects: map<Ref, Object>)
      reads q.slot
    {
      q.use == Image && q.embedded.None? && original.1 == [] ==>
        && open(original.0).Found? && Resolve(objects, q.slot.base).Some?
        && ConfigAt(objects, q.slot.base) == open(original.0).value.config
    }

    ghost predicate AllPlannedFrom(requests: seq<Request>, originals: seq<(Ref, seq<Ref>)>, chains: seq<Chain>) {
      && |chains| <= |requests| == |originals|
      && forall i :: 0 <= i < |chains| ==> PlannedFrom(requests[i], originals[i], chains[i])
    }

    /** Emits chain n; those before it still read their plans and those after it can still be emitted. */
    method EmitNext(chains: seq<Chain>, n: nat) returns (ok: bool)
      requires Valid() && Separate(chains) && n < |chains|
      requires forall i :: 0 <= i < n ==> ChainReads(chains[i], target.objects)
      requires forall i :: n <= i < |chains| ==> ChainOk(chains[i], target.objects)
      modifies target, chains[n].slot, chains[n].Emitted()
      ensures Valid() && Grows(old(target.objects), target.objects)
      ensures !ok ==> exists i: nat :: target.fails(i)
      ensures ok ==> forall i :: 0 <= i <= n ==> ChainReads(chains[i], target.objects)
      ensures forall i :: n < i < |chains| ==> ChainOk(chains[i], target.objects)
    {
      ghost var before := target.objects;
      ok := EmitChain(chains[n]);
      forall i | 0 <= i < |chains| && i != n
        ensures i < n ==> ChainReads(chains[i], target.objects)
        ensures i > n ==> ChainOk(chains[i], target.objects)
      {
        ChainGrows(chains[i], before, target.objects);
      }
    }

    /** Emits every chain; each still reads its plan when the last one is done. */
    method EmitAll(chains: seq<Chain>) returns (ok: bool)
      requires Valid() && Separate(chains) && forall i :: 0 <= i < |chains| ==> ChainOk(chains[i], target.objects)
      modifies target, (set i | 0 <= i < |chains| :: chains[i].slot), (set i, v | 0 <= i < |chains| && v in chains[i].Emitted() :: v)
      ensures Valid() && Grows(old(target.objects), target.objects)
      ensures !ok ==> exists i: nat :: target.fails(i)
      ensures ok ==> forall i :: 0 <= i < |chains| ==> ChainReads(chains[i], target.objects)
    {
      for n := 0 to |chains|
        invariant Valid() && Grows(old(target.objects), target.objects)
        invariant forall i :: 0 <= i < n ==> ChainReads(chains[i], target.objects)
        invariant forall i :: n <= i < |chains| ==> ChainOk(chains[i], target.objects)
      {
        ok := EmitNext(chains, n);
        if !ok {
          return false;
        }
      }
      ok := true;
    }

    lemma MatchedWhenMarked(requests: seq<Request>, originals: seq<(Ref, seq<Ref>)>, flags: seq<bool>, cuts: seq<bool>)
      requires |requests| == |originals| && FlagsAfter(requests, originals, |requests|, flags, cuts)
      ensures session.AllMatched() <==> WillMatch(requests, originals, flags, cuts)
    {
      var refs, tops := AllVisited(requests, originals, |requests|), Selectors(requests, |requests|);
      forall k | 0 <= k < |flags| ensures session.matchedReplacement[k] <==> flags[k] || HitsAny(session.options.replacements, refs, k) {
        assert MarkedAt(session.options.replacements, flags, session.matchedReplacement, refs, k);
      }
      forall k | 0 <= k < |cuts| ensures session.matchedReduction[k] <==> cuts[k] || Reduces(session.options, tops, k) {
        assert MarkedTopAt(session.options, cuts, session.matchedReduction, tops, k);
      }
    }

    lemma ImagesKept(requests: seq<Request>, originals: seq<(Ref, seq<Ref>)>, chains: seq<Chain>)
      requires AllPlannedFrom(requests, originals, chains) && |chains| == |requests|
      requires forall i :: 0 <= i < |chains| ==> chains[i].slot == requests[i].slot && ChainReads(chains[i], target.objects)
      ensures forall i :: 0 <= i < |requests| ==> ImageKept(requests[i], originals[i], target.objects)
    {
      forall i | 0 <= i < |requests| ensures ImageKept(requests[i], originals[i], target.objects) {
        assert PlannedFrom(requests[i], originals[i], chains[i]) && ChainReads(chains[i], target.objects);
      }
    }

    /** Emits the planned chains of the requests. */
    method EmitPrepared(requests: seq<Request>, chains: seq<Chain>, ghost owned: set<Value>, ghost originals: seq<(Ref, seq<Ref>)>) returns (ok: bool)
      requires Valid() && |chains| == |requests| && Separate(chains)
      requires forall i :: 0 <= i < |chains| ==> chains[i].slot == requests[i].slot && chains[i].Emitted() <= owned
      requires forall i :: 0 <= i < |chains| ==> ChainOk(chains[i], map[])
      requires !session.options.skipVerify ==> AllPlannedFrom(requests, originals, chains)
      modifies target, (set i | 0 <= i < |requests| :: requests[i].slot), owned
      ensures Valid() && (!ok ==> exists i: nat :: target.fails(i))
      ensures ok ==> forall i :: 0 <= i < |chains| ==> chains[i].slot == requests[i].slot && ChainReads(chains[i], target.objects)
      ensures ok && !session.options.skipVerify ==>
                forall i :: 0 <= i < |requests| ==> ImageKept(requests[i], originals[i], target.objects)
    {
      forall i | 0 <= i < |chains| ensures ChainOk(chains[i], target.objects) {
        ChainGrows(chains[i], map[], target.objects);
      }
      ok := EmitAll(chains);
      if ok && !session.options.skipVerify {
        ImagesKept(requests, originals, chains);
      }
    }

    /** Emits the planned chains if every rule matched. */
    method EmitMatched(requests: seq<Request>, chains: seq<Chain>, ghost owned: set<Value>, ghost originals: seq<(Ref, seq<Ref>)>)
      returns (matched: bool, emitted: bool)
      requires Valid() && |chains| == |requests| && Prepared(requests, chains, owned)
      requires !session.options.skipVerify ==> AllPlannedFrom(requests, originals, chains)
      modifies target, (set i | 0 <= i < |requests| :: requests[i].slot), owned
      ensures Valid() && (matched <==> session.AllMatched())
      ensures !matched ==> target.objects == old(target.objects) && target.puts == old(target.puts) && !emitted
      ensures matched && !emitted ==> exists i: nat :: target.fails(i)
      ensures emitted ==> forall i :: 0 <= i < |chains| ==> chains[i].slot == requests[i].slot && ChainReads(chains[i], target.objects)
      ensures emitted && !session.options.skipVerify ==>
                forall i :: 0 <= i < |requests| ==> ImageKept(requests[i], originals[i], target.objects)
    {
      emitted := false;
      matched := session.CheckMatched();
      if matched {
        emitted := EmitPrepared(requests, chains, owned, originals);
      }
    }

    /**
     A complete plan before any new object: nothing is published unless every chain was planned and every rule matched,
     and when all are emitted every chain's references read at the destination what its original references read.
     */
    method RewriteAll(requests: seq<Request>) returns (planned: bool, emitted: bool, chains: seq<Chain>)
      requires Valid() && RequestsOk(requests)
      modifies session, target, set i | 0 <= i < |requests| :: requests[i].slot
      ensures Valid()
      ensures !planned ==> target.objects == old(target.objects) && target.puts == old(target.puts) && !emitted
      ensures planned ==> session.AllMatched() && |chains| == |requests|
      ensures planned && !emitted ==> exists i: nat :: target.fails(i)
      ensures planned && emitted ==> forall i :: 0 <= i < |chains| ==>
                chains[i].slot == requests[i].slot && ChainReads(chains[i], target.objects)
      ensures planned && emitted && !session.options.skipVerify ==> AllPlannedFrom(requests, old(Originals(requests)), chains)
      ensures planned && emitted && !session.options.skipVerify ==>
                forall i :: 0 <= i < |requests| ==> ImageKept(requests[i], old(Originals(requests))[i], target.objects)
      ensures Healthy() && !session.options.skipVerify ==>
                (planned <==>
                   && AllPlannable(requests, old(Originals(requests)), |requests|)
                   && WillMatch(requests, old(Originals(requests)), old(session.matchedReplacement), old(session.matchedReduction)))
    {
      emitted := false;
      ghost var owned;
      planned, chains, owned := PlanAll(requests);
      if !planned {
        return;
      }
      if !session.options.skipVerify {
        MatchedWhenMarked(requests, old(Originals(requests)), old(session.matchedReplacement), old(session.matchedReduction));
      }
      planned, emitted := EmitMatched(requests, chains, owned, old(Originals(requests)));
    }
  }

  ghost predicate OnChain(rules: seq<Replacement>, refs: seq<Ref>) {
    exists i :: 0 <= i < |rules| && (rules[i].source in refs || rules[i].target in refs)
  }

  ghost function Payloads(values: seq<Value>): (r: seq<seq<Cell>>)
    ensures |r| == |values| && forall k :: 0 <= k < |r| ==> r[k] == values[k].payload.cells
  {
    seq(|values|, k requires 0 <= k < |values| => values[k].payload.cells)
  }
}

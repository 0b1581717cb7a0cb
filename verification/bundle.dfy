/**
 * Publishing a Bundle and the Bundles it refers to into a location directory: dependencies first, the root last,
 * while other publishers create files there. A Manifest key is looked up in the root, then in the refs in order.
 */
module Bundles {

  type Name = string
  type Key = string
  type Payload = string

  datatype Ref = Local(name: Name) | Located(location: string, name: Name) | Invalid

  datatype Bundle = Bundle(manifests: map<Key, Payload>, refs: seq<Ref>)

  /** A file of the source directory: a Bundle, or one that cannot be read as such. */
  datatype SourceFile = Readable(bundle: Bundle) | Broken

  /** Where a key is found. */
  datatype Carrier = InRoot | InLocal(name: Name) | InLocated(location: string, name: Name) | Nowhere

  type Directory = map<Name, Bundle>
  type Locations = map<(string, Name), Bundle>

  // ----- First-match lookup -----

  function SelectRef(refs: seq<Ref>, dir: Directory, named: Locations, k: Key): (c: Carrier)
    ensures !c.InRoot?
  {
    if refs == [] then Nowhere
    else match refs[0]
      case Local(n) =>
        if n in dir && k in dir[n].manifests then InLocal(n) else SelectRef(refs[1..], dir, named, k)
      case Located(l, n) =>
        if (l, n) in named && k in named[(l, n)].manifests then InLocated(l, n) else SelectRef(refs[1..], dir, named, k)
      case Invalid => SelectRef(refs[1..], dir, named, k)
  }

  function Select(root: Bundle, dir: Directory, named: Locations, k: Key): Carrier {
    if k in root.manifests then InRoot else SelectRef(root.refs, dir, named, k)
  }

  /** The lookup reads a local carrier's bytes. */
  function Carried(dir: Directory, c: Carrier): set<Bundle> {
    if c.InLocal? && c.name in dir then {dir[c.name]} else {}
  }

  /** The two directories agree on everything the refs name: same content, or absent from both. */
  ghost predicate Agree(refs: seq<Ref>, a: Directory, b: Directory) {
    forall i :: 0 <= i < |refs| && refs[i].Local? ==> SameEntry(refs[i].name, a, b)
  }

  predicate SameEntry(n: Name, a: Directory, b: Directory) {
    (n in a <==> n in b) && (n in a ==> b[n] == a[n])
  }

  /** Directories that agree select the same carrier with the same content for every key. */
  lemma {:induction false} AgreeSelectsSame(refs: seq<Ref>, a: Directory, b: Directory, named: Locations, k: Key)
    requires Agree(refs, a, b)
    ensures SelectRef(refs, a, named, k) == SelectRef(refs, b, named, k)
    ensures Carried(a, SelectRef(refs, a, named, k)) == Carried(b, SelectRef(refs, b, named, k))
  {
    if refs == [] {
    } else {
      assert refs[0].Local? ==> SameEntry(refs[0].name, a, b);
      AgreeSelectsSame(refs[1..], a, b, named, k);
    }
  }

  lemma {:induction false} SelectedIsPresent(refs: seq<Ref>, dir: Directory, named: Locations, k: Key)
    requires SelectRef(refs, dir, named, k).InLocal?
    ensures SelectRef(refs, dir, named, k).name in dir
  {
    if refs == [] {
    } else {
      if SelectRef(refs, dir, named, k) == SelectRef(refs[1..], dir, named, k) {
        if !(refs[0].Local? && refs[0].name in dir && k in dir[refs[0].name].manifests) {
          SelectedIsPresent(refs[1..], dir, named, k);
        }
      }
    }
  }

  /** Why unavailable targets are checked: a file appearing there takes over every key it has that nothing before it carries. */
  lemma {:induction false} UnexpectedFileShadows(refs: seq<Ref>, i: nat, a: Directory, b: Directory, named: Locations, k: Key)
    requires i < |refs| && refs[i].Local? && refs[i].name !in a && refs[i].name in b && k in b[refs[i].name].manifests
    requires Agree(refs[..i], a, b) && SelectRef(refs[..i], a, named, k) == Nowhere
    ensures SelectRef(refs, b, named, k) == InLocal(refs[i].name)
    ensures SelectRef(refs, a, named, k) != SelectRef(refs, b, named, k)
  {
    var n := refs[i].name;
    if i == 0 {
    } else {
      assert refs[..i][0] == refs[0] && refs[..i][1..] == refs[1..][..i - 1];
      assert refs[0].Local? ==> SameEntry(refs[0].name, a, b);
      UnexpectedFileShadows(refs[1..], i - 1, a, b, named, k);
    }
    if SelectRef(refs, a, named, k) == InLocal(n) {
      SelectedIsPresent(refs, a, named, k);
    }
  }

  // ----- Pinning the plan -----

  /** A Bundle pinned for copying, with the name it gets at the destination. */
  datatype Pinned = Pinned(name: Name, bundle: Bundle)

  /** The source the planner selected for a dependency's Manifest: none recorded, a located carrier, the root, or a ref. */
  datatype Chosen = Unrecorded | ByLocation | FromRoot | FromRef(name: Name)

  datatype Plan = Plan(root: Key, rootName: Name, refs: seq<Ref>, rootFile: SourceFile, exact: seq<(Key, Chosen)>)

  datatype PinResult = Pins(files: seq<Pinned>, unavailable: seq<Name>, copied: seq<Key>) | Unpublishable

  /** The dependency Manifests whose payloads are copied: all but those of located carriers. */
  function Copied(exact: seq<(Key, Chosen)>): seq<Key> {
    if exact == [] then []
    else Copied(exact[..|exact| - 1]) + if exact[|exact| - 1].1.ByLocation? then [] else [exact[|exact| - 1].0]
  }

  /** A selected source is recorded, and one behind a ref is a readable file of the source directory. */
  ghost predicate ChosenOk(c: Chosen, p: Plan, source: map<Name, SourceFile>) {
    match c
    case Unrecorded => false
    case FromRef(n) => Local(n) in p.refs && n in Sources(source)
    case _ => true
  }

  ghost predicate RefOk(r: Ref, source: map<Name, SourceFile>, rootName: Name) {
    && !r.Invalid?
    && (r.Local? ==> r.name != rootName && (r.name in source ==> source[r.name].Readable?))
  }

  ghost predicate RootOk(p: Plan) {
    p.rootFile.Readable? && p.root in p.rootFile.bundle.manifests && p.rootFile.bundle.refs == p.refs
  }

  /** The readable part of the source directory. */
  ghost function Sources(source: map<Name, SourceFile>): Directory {
    map n | n in source && source[n].Readable? :: source[n].bundle
  }

  predicate Has(files: seq<Pinned>, x: Name) { exists i :: 0 <= i < |files| && files[i].name == x }

  lemma HasNext(files: seq<Pinned>, f: Pinned, x: Name)
    ensures Has(files + [f], x) <==> Has(files, x) || f.name == x
  {
    var more := files + [f];
    assert more[|files|] == f;
    if Has(files, x) {
      var i :| 0 <= i < |files| && files[i].name == x;
      assert more[i].name == x;
    }
  }

  ghost predicate Copies(files: seq<Pinned>, source: map<Name, SourceFile>) {
    forall i :: 0 <= i < |files| ==> files[i].name in source && source[files[i].name] == Readable(files[i].bundle)
  }

  predicate Distinct(files: seq<Pinned>) { forall i, j :: 0 <= i < j < |files| ==> files[i].name != files[j].name }

  /** Every name in seen is pinned with its content or listed as missing from the source; nothing else is. */
  ghost predicate Resolved(seen: set<Name>, source: map<Name, SourceFile>, files: seq<Pinned>, missing: seq<Name>) {
    && Copies(files, source) && Distinct(files)
    && (forall x :: Has(files, x) <==> x in seen && x in source)
    && (forall x :: x in missing <==> x in seen && x !in source)
  }

  lemma ResolvedNext(seen: set<Name>, source: map<Name, SourceFile>, files: seq<Pinned>, missing: seq<Name>, x: Name)
    requires Resolved(seen, source, files, missing) && x !in seen
    ensures x !in source ==> Resolved(seen + {x}, source, files, missing + [x])
    ensures x in source && source[x].Readable? ==> Resolved(seen + {x}, source, files + [Pinned(x, source[x].bundle)], missing)
  {
    if x in source && source[x].Readable? {
      var f := Pinned(x, source[x].bundle);
      forall y ensures Has(files + [f], y) <==> y in seen + {x} && y in source {
        HasNext(files, f, y);
      }
      assert !Has(files, x);
    }
  }

  /** The available local refs in the order of their first mention. */
  ghost function Dependencies(refs: seq<Ref>, seen: set<Name>, source: map<Name, SourceFile>): seq<Pinned> {
    if refs == [] then []
    else if !refs[0].Local? || refs[0].name in seen then Dependencies(refs[1..], seen, source)
    else
      var rest := Dependencies(refs[1..], seen + {refs[0].name}, source);
      if refs[0].name in source && source[refs[0].name].Readable? then [Pinned(refs[0].name, source[refs[0].name].bundle)] + rest
      else rest
  }

  lemma DependenciesAt(refs: seq<Ref>, n: nat, seen: set<Name>, source: map<Name, SourceFile>, files: seq<Pinned>)
    requires n < |refs|
    ensures var now, rest := files + Dependencies(refs[n..], seen, source), refs[n + 1..];
      if !refs[n].Local? || refs[n].name in seen then now == files + Dependencies(rest, seen, source)
      else if refs[n].name in source && source[refs[n].name].Readable? then
        now == files + [Pinned(refs[n].name, source[refs[n].name].bundle)] + Dependencies(rest, seen + {refs[n].name}, source)
      else now == files + Dependencies(rest, seen + {refs[n].name}, source)
  {
    assert refs[n..][1..] == refs[n + 1..];
  }

  /** Dependencies first, each once and in ref order, then the root. */
  ghost predicate PinsPlan(p: Plan, source: map<Name, SourceFile>, files: seq<Pinned>, missing: seq<Name>) {
    && |files| > 0 && Distinct(files)
    && RootOk(p) && Local(p.rootName) !in p.refs && files[|files| - 1] == Pinned(p.rootName, p.rootFile.bundle)
    && Resolved(Names(p.refs), source, files[..|files| - 1], missing)
    && files[..|files| - 1] == Dependencies(p.refs, {}, source)
  }

  function Names(refs: seq<Ref>): (names: set<Name>)
    ensures forall x :: x in names <==> Local(x) in refs
  {
    set i | 0 <= i < |refs| && refs[i].Local? :: refs[i].name
  }

  lemma RootIsLast(p: Plan, source: map<Name, SourceFile>, files: seq<Pinned>, missing: seq<Name>)
    requires RootOk(p) && Resolved(Names(p.refs), source, files, missing) && files == Dependencies(p.refs, {}, source) && Local(p.rootName) !in p.refs
    ensures PinsPlan(p, source, files + [Pinned(p.rootName, p.rootFile.bundle)], missing)
  {
    var all := files + [Pinned(p.rootName, p.rootFile.bundle)];
    assert all[..|files|] == files;
    assert !Has(files, p.rootName);
  }

  /** The first n refs are dealt with. */
  ghost predicate PinnedUpTo(refs: seq<Ref>, n: nat, source: map<Name, SourceFile>, seen: set<Name>, files: seq<Pinned>, missing: seq<Name>)
    requires n <= |refs|
  {
    && (forall x :: x in seen <==> Local(x) in refs[..n])
    && Resolved(seen, source, files, missing)
    && files + Dependencies(refs[n..], seen, source) == Dependencies(refs, {}, source)
  }

  lemma SkipRef(refs: seq<Ref>, n: nat, source: map<Name, SourceFile>, seen: set<Name>, files: seq<Pinned>, missing: seq<Name>)
    requires n < |refs| && PinnedUpTo(refs, n, source, seen, files, missing)
    requires !refs[n].Local? || refs[n].name in seen
    ensures PinnedUpTo(refs, n + 1, source, seen, files, missing)
  {
    assert refs[..n + 1] == refs[..n] + [refs[n]];
    DependenciesAt(refs, n, seen, source, files);
  }

  lemma PinRef(refs: seq<Ref>, n: nat, source: map<Name, SourceFile>, seen: set<Name>, files: seq<Pinned>, missing: seq<Name>)
    requires n < |refs| && PinnedUpTo(refs, n, source, seen, files, missing)
    requires refs[n].Local? && refs[n].name !in seen
    ensures var x := refs[n].name;
      && (x !in source ==> PinnedUpTo(refs, n + 1, source, seen + {x}, files, missing + [x]))
      && (x in source && source[x].Readable? ==>
            PinnedUpTo(refs, n + 1, source, seen + {x}, files + [Pinned(x, source[x].bundle)], missing))
  {
    assert refs[..n + 1] == refs[..n] + [refs[n]];
    DependenciesAt(refs, n, seen, source, files);
    ResolvedNext(seen, source, files, missing, refs[n].name);
  }

  /** Pins the refs in order; located and repeated ones are skipped, missing ones listed. */
  method PinRefs(p: Plan, source: map<Name, SourceFile>)
    returns (ok: bool, files: seq<Pinned>, missing: seq<Name>, seen: set<Name>, readers: set<Name>)
    ensures ok <==> forall i :: 0 <= i < |p.refs| ==> RefOk(p.refs[i], source, p.rootName)
    ensures ok ==> PinnedUpTo(p.refs, |p.refs|, source, seen, files, missing)
    ensures ok ==> forall x :: x in readers <==> x in seen && x in source
  {
    files, missing, seen, readers := [], [], {}, {};
    for n := 0 to |p.refs|
      invariant forall i :: 0 <= i < n ==> RefOk(p.refs[i], source, p.rootName)
      invariant PinnedUpTo(p.refs, n, source, seen, files, missing)
      invariant forall x :: x in readers <==> x in seen && x in source
    {
      var ref := p.refs[n];
      if ref.Located? {
        SkipRef(p.refs, n, source, seen, files, missing);
        continue;
      }
      if ref.Invalid? || ref.name == p.rootName {
        assert !RefOk(p.refs[n], source, p.rootName);
        return false, [], [], {}, {};
      }
      if ref.name in seen {
        SkipRef(p.refs, n, source, seen, files, missing);
        SeenIsOk(p, n, source);
        continue;
      }
      PinRef(p.refs, n, source, seen, files, missing);
      seen := seen + {ref.name};
      if ref.name !in source {
        missing := missing + [ref.name];
        continue;
      }
      if source[ref.name].Broken? {
        assert !RefOk(p.refs[n], source, p.rootName);
        return false, [], [], {}, {};
      }
      files := files + [Pinned(ref.name, source[ref.name].bundle)];
      readers := readers + {ref.name};
    }
    ok := true;
  }

  method PinBundlePlan(p: Plan, source: map<Name, SourceFile>) returns (r: PinResult)
    ensures r.Pins? <==> Publishable(p, source)
    ensures r.Pins? ==> PinsPlan(p, source, r.files, r.unavailable) && r.copied == Copied(p.exact)
  {
    var ok, files, missing, seen, readers := PinRefs(p, source);
    if !ok || p.rootFile.Broken? || p.root !in p.rootFile.bundle.manifests || p.rootFile.bundle.refs != p.refs {
      return Unpublishable;
    }
    ReadersAreSources(p, source, seen, files, missing, readers);
    var copied;
    ok, copied := ResolveChosen(p, readers);
    if !ok {
      return Unpublishable;
    }
    AllPinned(p, source, seen, files, missing);
    r := Pins(files + [Pinned(p.rootName, p.rootFile.bundle)], missing, copied);
  }

  lemma ReadersAreSources(p: Plan, source: map<Name, SourceFile>, seen: set<Name>, files: seq<Pinned>, missing: seq<Name>, readers: set<Name>)
    requires PinnedUpTo(p.refs, |p.refs|, source, seen, files, missing)
    requires forall x :: x in readers <==> x in seen && x in source
    requires forall i :: 0 <= i < |p.refs| ==> RefOk(p.refs[i], source, p.rootName)
    ensures forall x :: x in readers <==> Local(x) in p.refs && x in Sources(source)
  {
    assert p.refs[..|p.refs|] == p.refs;
    forall x | x in readers ensures x in Sources(source) {
      var i :| 0 <= i < |p.refs| && p.refs[i] == Local(x);
      assert RefOk(p.refs[i], source, p.rootName);
    }
  }

  /** Every selected source must be recorded and, behind a ref, pinned; located ones are left to their own carriers. */
  method ResolveChosen(p: Plan, readers: set<Name>) returns (ok: bool, copied: seq<Key>)
    ensures ok <==> forall i :: 0 <= i < |p.exact| ==>
              !p.exact[i].1.Unrecorded? && (p.exact[i].1.FromRef? ==> p.exact[i].1.name in readers)
    ensures ok ==> copied == Copied(p.exact)
  {
    copied := [];
    for n := 0 to |p.exact|
      invariant copied == Copied(p.exact[..n])
      invariant forall i :: 0 <= i < n ==> !p.exact[i].1.Unrecorded? && (p.exact[i].1.FromRef? ==> p.exact[i].1.name in readers)
    {
      assert p.exact[..n + 1][..n] == p.exact[..n];
      var chosen := p.exact[n].1;
      if chosen.Unrecorded? {
        return false, [];
      }
      if chosen.ByLocation? {
        continue;
      }
      if chosen.FromRef? && chosen.name !in readers {
        return false, [];
      }
      copied := copied + [p.exact[n].0];
    }
    assert p.exact[..|p.exact|] == p.exact;
    ok := true;
  }

  /** A ref whose name was met before is as good as it was then. */
  lemma SeenIsOk(p: Plan, n: nat, source: map<Name, SourceFile>)
    requires n < |p.refs| && p.refs[n] in p.refs[..n]
    requires forall i :: 0 <= i < n ==> RefOk(p.refs[i], source, p.rootName)
    ensures RefOk(p.refs[n], source, p.rootName)
  {
    var i :| 0 <= i < n && p.refs[..n][i] == p.refs[n];
    assert RefOk(p.refs[i], source, p.rootName);
  }

  lemma AllPinned(p: Plan, source: map<Name, SourceFile>, seen: set<Name>, files: seq<Pinned>, missing: seq<Name>)
    requires Publishable(p, source) && PinnedUpTo(p.refs, |p.refs|, source, seen, files, missing)
    ensures PinsPlan(p, source, files + [Pinned(p.rootName, p.rootFile.bundle)], missing)
  {
    assert p.refs[..|p.refs|] == p.refs && p.refs[|p.refs|..] == [];
    assert seen == Names(p.refs);
    assert files + [] == files;
    RootIsLast(p, source, files, missing);
  }

  // ----- The verifier's view of the copied files -----

  /** The first of the copied dependencies that has the key. */
  function Holding(files: seq<Pinned>, k: Key): Carrier {
    if files == [] then Nowhere
    else if k in files[0].bundle.manifests then InLocal(files[0].name)
    else Holding(files[1..], k)
  }

  /** Leaving the located refs out does not change which copied Bundle a key is verified against. */
  lemma {:induction false} CopiedSelectionAgrees(refs: seq<Ref>, seen: set<Name>, source: map<Name, SourceFile>, named: Locations, k: Key)
    requires SelectRef(refs, Sources(source), named, k).InLocal?
    requires forall x :: x in seen && x in source && source[x].Readable? ==> k !in source[x].bundle.manifests
    ensures Holding(Dependencies(refs, seen, source), k) == SelectRef(refs, Sources(source), named, k)
  {
    if refs == [] {
    } else {
      if !refs[0].Local? || refs[0].name in seen {
        CopiedSelectionAgrees(refs[1..], seen, source, named, k);
      } else if !(refs[0].name in Sources(source) && k in Sources(source)[refs[0].name].manifests) {
        CopiedSelectionAgrees(refs[1..], seen + {refs[0].name}, source, named, k);
        if refs[0].name in source && source[refs[0].name].Readable? {
          var d := Dependencies(refs, seen, source);
          assert d[1..] == Dependencies(refs[1..], seen + {refs[0].name}, source);
        }
      }
    }
  }

  /** The copied Bundle whose content a selected key is verified against: the root, then the dependencies in order. */
  method VerifierOf(files: seq<Pinned>, k: Key) returns (c: Carrier)
    requires |files| > 0
    ensures c == if k in files[|files| - 1].bundle.manifests then InRoot else Holding(files[..|files| - 1], k)
  {
    var last := |files| - 1;
    if k in files[last].bundle.manifests {
      return InRoot;
    }
    var deps := files[..last];
    for i := 0 to last
      invariant Holding(deps, k) == Holding(deps[i..], k)
    {
      if k in files[i].bundle.manifests {
        return InLocal(files[i].name);
      }
      assert deps[i..][1..] == deps[i + 1..];
    }
    c := Nowhere;
  }

  ghost predicate Held(files: seq<Pinned>, k: Key)
    requires |files| > 0
  {
    k in files[|files| - 1].bundle.manifests || Holding(files[..|files| - 1], k) != Nowhere
  }

  /** Whether the published graph omits none of the copied Manifests. */
  method CheckCopied(files: seq<Pinned>, copied: seq<Key>) returns (ok: bool)
    requires |files| > 0
    ensures ok <==> forall k :: k in copied ==> Held(files, k)
  {
    for i := 0 to |copied|
      invariant forall j :: 0 <= j < i ==> Held(files, copied[j])
    {
      var c := VerifierOf(files, copied[i]);
      if c == Nowhere {
        assert copied[i] in copied && !Held(files, copied[i]);
        return false;
      }
    }
    ok := true;
  }

  /** What VerifierOf finds among the copies is what the source lookup selects, unless that is a located carrier. */
  lemma VerifiedAsSelected(p: Plan, source: map<Name, SourceFile>, files: seq<Pinned>, missing: seq<Name>, named: Locations, k: Key)
    requires PinsPlan(p, source, files, missing)
    requires var c := Select(p.rootFile.bundle, Sources(source), named, k); c.InRoot? || c.InLocal?
    ensures Select(p.rootFile.bundle, Sources(source), named, k) ==
      if k in files[|files| - 1].bundle.manifests then InRoot else Holding(files[..|files| - 1], k)
  {
    if k !in p.rootFile.bundle.manifests {
      CopiedSelectionAgrees(p.refs, {}, source, named, k);
    }
  }

  /** The planner's record of a dependency is what the source lookup selects. */
  predicate Records(c: Chosen, selected: Carrier) {
    match selected
    case InRoot => c == FromRoot
    case InLocal(n) => c == FromRef(n)
    case InLocated(_, _) => c == ByLocation
    case Nowhere => false
  }

  /** If the planner recorded what the lookup selects, the published graph omits nothing. */
  lemma {:induction false} RecordedIsComplete(p: Plan, source: map<Name, SourceFile>, named: Locations)
    requires p.rootFile.Readable? && p.rootFile.bundle.refs == p.refs
    requires forall i :: 0 <= i < |p.exact| ==>
      Records(p.exact[i].1, Select(p.rootFile.bundle, Sources(source), named, p.exact[i].0))
    ensures Complete(p, source)
    decreases |p.exact|
  {
    if p.exact == [] {
    } else {
      var n := |p.exact| - 1;
      RecordedIsComplete(p.(exact := p.exact[..n]), source, named);
      var k := p.exact[n].0;
      if Select(p.rootFile.bundle, Sources(source), named, k).InLocal? {
        CopiedSelectionAgrees(p.refs, {}, source, named, k);
      }
    }
  }

  // ----- Publishing -----

  datatype Published = Ok(name: Name) | Failed

  /** One publication into a destination directory; ours are the files it created there. */
  class Publication {
    const plan: Plan
    const source: map<Name, SourceFile>
    var dest: Directory
    ghost var ours: set<Name>

    /** Holds between any two steps, with others at work. */
    ghost predicate Valid() reads this { Ordered(plan, source, ours, dest) }

    constructor (plan: Plan, source: map<Name, SourceFile>, dest: Directory)
      ensures this.plan == plan && this.source == source && this.dest == dest && ours == {} && Valid()
    {
      this.plan, this.source, this.dest, ours := plan, source, dest, {};
    }

    /** Other publishers create files of any content under free names among those they use. */
    method OthersCreate(names: set<Name>)
      requires Valid()
      modifies this`dest
      ensures Valid() && Grew(old(dest), dest) && dest.Keys <= old(dest).Keys + names
    {
      var more: Directory := *;
      dest := (map n | n in more && n in names :: more[n]) + dest;
    }

    method CheckAbsent(names: seq<Name>) returns (ok: bool)
      ensures ok <==> forall i :: 0 <= i < |names| ==> names[i] !in dest
    {
      for n := 0 to |names|
        invariant forall i :: 0 <= i < n ==> names[i] !in dest
      {
        if names[n] in dest {
          return false;
        }
      }
      ok := true;
    }

    /** Creates the file exclusively, or accepts an existing one only if it is a byte copy; the copy itself may fail. */
    method PutFile(f: Pinned, fault: bool) returns (ok: bool)
      requires Valid() && (f.name == plan.rootName ==> DependenciesIn(plan, source, dest))
      modifies this
      ensures Valid() && Grew(old(dest), dest) && dest.Keys <= old(dest).Keys + {f.name}
      ensures ok ==> f.name in dest && dest[f.name] == f.bundle
      ensures ok <==> (f.name in old(dest) && old(dest)[f.name] == f.bundle) || (f.name !in old(dest) && !fault)
      ensures !ok ==> dest == old(dest)
      ensures ours == if ok && f.name !in old(dest) then old(ours) + {f.name} else old(ours)
    {
      if f.name !in dest {
        if fault {
          return false;
        }
        dest := dest[f.name := f.bundle];
        ours := ours + {f.name};
        return true;
      }
      ok := dest[f.name] == f.bundle;
    }

    /** One step of the copying: before the last file, the root, the unavailable targets are checked again. */
    method PutNext(files: seq<Pinned>, missing: seq<Name>, n: nat, faults: set<Name>, others: set<Name>) returns (ok: bool)
      requires Valid() && PinsPlan(plan, source, files, missing) && n < |files| && InPlace(files, n, dest)
      modifies this
      ensures Valid() && Grew(old(dest), dest) && dest.Keys <= old(dest).Keys + others + {files[n].name}
      ensures ok ==> InPlace(files, n + 1, dest)
      ensures files[n].name !in old(dest).Keys + others + faults && (forall x :: x in missing ==> x !in old(dest).Keys + others) ==> ok
    {
      OthersCreate(others);
      if n == |files| - 1 {
        ok := CheckAbsent(missing);
        if !ok {
          return false;
        }
        AllDependenciesIn(plan, source, files, missing, dest);
      } else {
        PinnedTargets(plan, source, files, missing, n);
      }
      ok := PutFile(files[n], files[n].name in faults);
    }

    /** Copies the pinned files in order. */
    method PutFiles(files: seq<Pinned>, missing: seq<Name>, faults: set<Name>, others: set<Name>) returns (ok: bool)
      requires Valid() && PinsPlan(plan, source, files, missing)
      modifies this
      ensures Valid() && Grew(old(dest), dest)
      ensures ok ==> InPlace(files, |files|, dest)
      ensures forall x :: x in dest ==> x in old(dest) || x in others || Has(files, x)
      ensures Targets(plan) !! faults + others + old(dest).Keys ==> ok
    {
      for n := 0 to |files|
        invariant Valid() && Grew(old(dest), dest)
        invariant InPlace(files, n, dest)
        invariant forall x :: x in dest ==> x in old(dest) || x in others || Has(files[..n], x)
      {
        PinnedTargets(plan, source, files, missing, n);
        HasUpTo(files, n);
        ok := PutNext(files, missing, n, faults, others);
        if !ok {
          return false;
        }
      }
      ok := true;
      assert files[..|files|] == files;
    }

    /** Publishes the plan. */
    method PutBundle(faults: set<Name>, others: set<Name>) returns (r: Published)
      requires Valid()
      modifies this
      ensures Valid() && Grew(old(dest), dest)
      ensures r.Ok? ==> r.name == plan.rootName && Faithful(plan, source, dest) && Complete(plan, source)
      ensures !Publishable(plan, source) ==> r.Failed? && dest == old(dest)
      ensures Publishable(plan, source) && Complete(plan, source) && Targets(plan) !! faults + others + old(dest).Keys ==> r.Ok?
    {
      var pins := PinBundlePlan(plan, source);
      if pins.Unpublishable? {
        return Failed;
      }
      var files, missing := pins.files, pins.unavailable;
      assert files[..|files|] == files;
      PinnedTargets(plan, source, files, missing, |files|);
      OthersCreate(others);
      var ok := CheckAbsent(missing);
      if !ok {
        return Failed;
      }
      ok := PutFiles(files, missing, faults, others);
      if !ok {
        return Failed;
      }
      ok := CheckCopied(files, pins.copied);
      if !ok {
        return Failed;
      }
      OthersCreate(others);
      ok := CheckAbsent(missing);
      if !ok {
        return Failed;
      }
      CopiedAgrees(plan, source, files, missing, dest);
      r := Ok(plan.rootName);
    }
  }

  ghost predicate Publishable(p: Plan, source: map<Name, SourceFile>) {
    && RootOk(p)
    && (forall i :: 0 <= i < |p.refs| ==> RefOk(p.refs[i], source, p.rootName))
    && (forall i :: 0 <= i < |p.exact| ==> ChosenOk(p.exact[i].1, p, source))
  }

  /** Every dependency Manifest to be copied is in the root or in an available dependency. */
  ghost predicate Complete(p: Plan, source: map<Name, SourceFile>) {
    p.rootFile.Readable? && forall k :: k in Copied(p.exact) ==>
      k in p.rootFile.bundle.manifests || Holding(Dependencies(p.refs, {}, source), k) != Nowhere
  }

  /** The destination names the plan is about. */
  function Targets(p: Plan): set<Name> { Names(p.refs) + {p.rootName} }

  ghost predicate InPlace(files: seq<Pinned>, n: nat, dest: Directory)
    requires n <= |files|
  {
    forall i :: 0 <= i < n ==> files[i].name in dest && dest[files[i].name] == files[i].bundle
  }

  ghost predicate Grew(a: Directory, b: Directory) { forall n :: n in a ==> n in b && b[n] == a[n] }

  /** The root stands at the destination, and every key is found there as it is at the source. */
  ghost predicate Faithful(p: Plan, source: map<Name, SourceFile>, dest: Directory) {
    && p.rootFile.Readable? && p.rootName in dest && dest[p.rootName] == p.rootFile.bundle
    && forall named: Locations, k: Key :: SameSelection(p.rootFile.bundle, Sources(source), dest, named, k)
  }

  ghost predicate SameSelection(root: Bundle, a: Directory, b: Directory, named: Locations, k: Key) {
    && Select(root, a, named, k) == Select(root, b, named, k)
    && Carried(a, Select(root, a, named, k)) == Carried(b, Select(root, b, named, k))
  }

  /** Every dependency the source has is in place. */
  ghost predicate DependenciesIn(p: Plan, source: map<Name, SourceFile>, dest: Directory) {
    forall x :: Local(x) in p.refs && x in Sources(source) ==> x in dest && dest[x] == Sources(source)[x]
  }

  /** The root is created by this publication only with every dependency in place. */
  ghost predicate Ordered(p: Plan, source: map<Name, SourceFile>, ours: set<Name>, dest: Directory) {
    p.rootName in ours ==> DependenciesIn(p, source, dest)
  }

  lemma HasUpTo(files: seq<Pinned>, n: nat)
    requires n < |files|
    ensures forall x :: Has(files[..n + 1], x) <==> Has(files[..n], x) || x == files[n].name
    ensures forall x :: Has(files[..n], x) ==> Has(files, x)
  {
    assert files[..n + 1] == files[..n] + [files[n]];
    forall x {
      HasNext(files[..n], files[n], x);
    }
  }

  /** The first n files and the missing ones are among the plan's targets, and the next file is not among the first n. */
  lemma PinnedTargets(p: Plan, source: map<Name, SourceFile>, files: seq<Pinned>, missing: seq<Name>, n: nat)
    requires PinsPlan(p, source, files, missing) && n <= |files|
    ensures forall x :: Has(files[..n], x) ==> x in Targets(p) && x !in missing
    ensures forall i :: 0 <= i < |missing| ==> missing[i] in Targets(p)
    ensures n < |files| ==> !Has(files[..n], files[n].name) && files[n].name in Targets(p)
    ensures n < |files| - 1 ==> files[n].name != p.rootName
  {
    var deps := files[..|files| - 1];
    assert forall i :: 0 <= i < |files| - 1 ==> files[i] == deps[i] && Has(deps, files[i].name);
    assert forall i :: 0 <= i < |missing| ==> missing[i] in missing;
  }

  lemma AllDependenciesIn(p: Plan, source: map<Name, SourceFile>, files: seq<Pinned>, missing: seq<Name>, dest: Directory)
    requires PinsPlan(p, source, files, missing) && InPlace(files, |files| - 1, dest)
    ensures DependenciesIn(p, source, dest)
  {
    var deps := files[..|files| - 1];
    forall x | Local(x) in p.refs && x in Sources(source) ensures x in dest && dest[x] == Sources(source)[x] {
      assert x in Names(p.refs) && Has(deps, x);
      var i :| 0 <= i < |deps| && deps[i].name == x;
      assert files[i] == deps[i];
    }
  }

  lemma CopiedAgrees(p: Plan, source: map<Name, SourceFile>, files: seq<Pinned>, missing: seq<Name>, dest: Directory)
    requires PinsPlan(p, source, files, missing)
    requires Publishable(p, source) && InPlace(files, |files|, dest)
    requires forall i :: 0 <= i < |missing| ==> missing[i] !in dest
    ensures Faithful(p, source, dest)
  {
    var deps := files[..|files| - 1];
    forall i | 0 <= i < |p.refs| && p.refs[i].Local? ensures SameEntry(p.refs[i].name, Sources(source), dest) {
      var x := p.refs[i].name;
      assert RefOk(p.refs[i], source, p.rootName);
      assert Local(x) in p.refs && x in Names(p.refs);
      if x in source {
        assert Has(deps, x);
        var j :| 0 <= j < |deps| && deps[j].name == x;
        assert files[j] == deps[j];
      } else {
        assert x in missing;
      }
    }
    forall named: Locations, k: Key ensures SameSelection(p.rootFile.bundle, Sources(source), dest, named, k) {
      AgreeSelectsSame(p.refs, Sources(source), dest, named, k);
    }
  }
}

/**
 * The template mirror: the drift check, the full sync and the drift-driven fix over one file tree, proved against one
 * description of what the template should hold.
 */
module TemplateSync {
  import opened Options
  import opened Sequences

  // Files under the app's source root, files under the template's source root, and everything else.
  datatype Path = App(rel: string) | Template(rel: string) | Other(name: string)

  datatype Mapping = Mapping(sourceFile: Path, templateFile: Path, rel: string)

  // `transform` answers None where the script's transform throws; `inScope` says which files the folder globs and the root-file
  // list pick up.
  datatype Config = Config(
    inScope: string -> bool,
    templateOnly: set<string>,
    mappings: seq<Mapping>,
    transform: (string, string) -> Option<string>)

  type Tree = map<Path, string>

  datatype Kind = MissingInTemplate | ContentMismatch | ExtraInTemplate

  datatype Drift = Drift(kind: Kind, sourceFile: Path, templateFile: Path, rel: string)

  datatype Failure = TransformFailed(name: string) | FileNotFound(path: Path)

  datatype Result<T> = Ok(value: T) | Err(failure: Failure)

  // The mapping table: distinct targets outside both source roots, and no target is another mapping's source.
  ghost predicate ConfigOk(c: Config) {
    && (forall i | 0 <= i < |c.mappings| :: c.mappings[i].templateFile.Other? && !c.mappings[i].sourceFile.Template?)
    && (forall i, j | 0 <= i < |c.mappings| && 0 <= j < |c.mappings| :: c.mappings[i].templateFile != c.mappings[j].sourceFile)
    && (forall i, j | 0 <= i < j < |c.mappings| :: c.mappings[i].templateFile != c.mappings[j].templateFile)
  }

  // ---------------------------------------------------------------------------------------------------------
  // What the template should hold
  // ---------------------------------------------------------------------------------------------------------

  function Lookup(t: Tree, p: Path): Option<string> {
    if p in t then Some(t[p]) else None
  }

  function MappingTo(mappings: seq<Mapping>, p: Path): (r: Option<Mapping>)
    ensures r.Some? ==> r.value in mappings && r.value.templateFile == p
    ensures r.None? ==> forall m | m in mappings :: m.templateFile != p
  {
    if mappings == [] then None
    else if mappings[0].templateFile == p then Some(mappings[0]) else MappingTo(mappings[1..], p)
  }

  // The source file a template file is made from, and the name its transform goes by.
  function OriginOf(c: Config, t: Tree, p: Path): Option<(Path, string)> {
    match p
    case Template(rel) => if c.inScope(rel) && App(rel) in t then Some((App(rel), rel)) else None
    case _ =>
      var m := MappingTo(c.mappings, p);
      if m.Some? then Some((m.value.sourceFile, m.value.rel)) else None
  }

  predicate Backed(c: Config, t: Tree, p: Path) {
    OriginOf(c, t, p).Some?
  }

  function Expected(c: Config, t: Tree, p: Path): Option<string>
    requires Backed(c, t, p)
  {
    var origin := OriginOf(c, t, p).value;
    if origin.0 in t then c.transform(origin.1, t[origin.0]) else None
  }

  // A template file nothing stands behind.
  predicate Extra(c: Config, t: Tree, p: Path) {
    p.Template? && p in t && c.inScope(p.rel) && App(p.rel) !in t && p.rel !in c.templateOnly
  }

  predicate Differs(c: Config, t: Tree, p: Path) {
    (Backed(c, t, p) && (p !in t || Expected(c, t, p) != Some(t[p]))) || Extra(c, t, p)
  }

  // What a file should be: made from its source, gone, or left alone.
  function Wanted(c: Config, t: Tree, p: Path): Option<string> {
    if Backed(c, t, p) then Expected(c, t, p) else if Extra(c, t, p) then None else Lookup(t, p)
  }

  function Targets(c: Config): set<Path> {
    set m | m in c.mappings :: m.templateFile
  }

  // All paths that can differ at all.
  ghost function Candidates(c: Config, t: Tree): set<Path> {
    (set p | p in t && p.Template?) + (set p | p in t && p.App? :: Template(p.rel)) + Targets(c)
  }

  ghost function Differing(c: Config, t: Tree): set<Path> {
    set p | p in Candidates(c, t) && Differs(c, t, p)
  }

  lemma DiffersIsCandidate(c: Config, t: Tree, p: Path)
    requires ConfigOk(c)
    ensures p in Differing(c, t) <==> Differs(c, t, p)
  {
    if Differs(c, t, p) && p.Template? && p !in t { assert App(p.rel) in t; }
  }

  // The tree is exactly what it should be.
  ghost predicate Mirrors(c: Config, before: Tree, after: Tree) {
    forall p :: Lookup(after, p) == Wanted(c, before, p)
  }

  // Nothing is left to fix in a mirrored tree, and fixing changed no source file and no file outside the mirror.
  lemma MirrorHasNoDrift(c: Config, before: Tree, after: Tree)
    requires ConfigOk(c) && Mirrors(c, before, after)
    requires forall p | Backed(c, before, p) :: Expected(c, before, p).Some?
    ensures forall p :: !Differs(c, after, p)
    ensures forall p | !Backed(c, before, p) && !Extra(c, before, p) :: Lookup(after, p) == Lookup(before, p)
    ensures forall p: Path | p.App? :: Lookup(after, p) == Lookup(before, p)
    ensures forall m | m in c.mappings :: Lookup(after, m.sourceFile) == Lookup(before, m.sourceFile)
  {
    forall p | SourceLike(c, p) ensures Lookup(after, p) == Lookup(before, p) { SourceStays(c, before, p); }
    forall p ensures !Differs(c, after, p) {
      assert Lookup(after, p) == Wanted(c, before, p);
      if p.Template? {
        assert SourceLike(c, App(p.rel)) && Lookup(after, App(p.rel)) == Lookup(before, App(p.rel));
      } else if Backed(c, before, p) {
        var m := MappingTo(c.mappings, p).value;
        assert SourceLike(c, m.sourceFile);
        assert Lookup(after, m.sourceFile) == Lookup(before, m.sourceFile);
      }
    }
  }

  ghost predicate SourceLike(c: Config, p: Path) {
    p.App? || exists m :: m in c.mappings && m.sourceFile == p
  }

  lemma SourceStays(c: Config, t: Tree, p: Path)
    requires ConfigOk(c) && SourceLike(c, p)
    ensures !Backed(c, t, p) && !Extra(c, t, p) && Wanted(c, t, p) == Lookup(t, p) && p !in Targets(c) && !p.Template?
  {
  }

  lemma NoDriftNothingUnreadable(c: Config, t: Tree)
    requires forall p :: !Differs(c, t, p)
    ensures Differing(c, t) == {} && forall p :: !Unreadable(c, t, p)
  {
    forall p ensures !Unreadable(c, t, p) { assert !Differs(c, t, p); }
  }

  lemma MirrorIsUnique(c: Config, before: Tree, a: Tree, b: Tree)
    requires Mirrors(c, before, a) && Mirrors(c, before, b)
    ensures a == b
  {
    forall p ensures (p in a <==> p in b) && (p in a ==> a[p] == b[p]) {
      assert Lookup(a, p) == Wanted(c, before, p) == Lookup(b, p);
    }
  }

  ghost predicate SameAt(before: Tree, after: Tree, p: Path) {
    (p in before <==> p in after) && (p in before ==> before[p] == after[p])
  }

  // A mirrored tree, file by file: every app file in scope and every mapped file is there in its transformed form, a
  // template file without a source is gone, unless it is template-only or out of scope, and nothing else has changed.
  lemma MirrorSpelled(c: Config, before: Tree, after: Tree)
    requires ConfigOk(c) && Mirrors(c, before, after)
    requires forall p | Backed(c, before, p) :: Expected(c, before, p).Some?
    ensures forall rel | App(rel) in before && c.inScope(rel) ::
              Template(rel) in after && c.transform(rel, before[App(rel)]) == Some(after[Template(rel)])
    ensures forall i | 0 <= i < |c.mappings| ::
              var m := c.mappings[i];
              && m.sourceFile in before && m.templateFile in after
              && c.transform(m.rel, before[m.sourceFile]) == Some(after[m.templateFile])
    ensures forall rel | App(rel) !in before && c.inScope(rel) && rel !in c.templateOnly :: Template(rel) !in after
    ensures forall rel | App(rel) !in before && rel in c.templateOnly :: SameAt(before, after, Template(rel))
    ensures forall rel | !c.inScope(rel) :: SameAt(before, after, Template(rel))
    ensures forall rel :: SameAt(before, after, App(rel))
    ensures forall name | (forall m | m in c.mappings :: m.templateFile != Other(name)) :: SameAt(before, after, Other(name))
  {
    forall p ensures Lookup(after, p) == Wanted(c, before, p) { }
    forall rel | App(rel) in before && c.inScope(rel)
      ensures Template(rel) in after && c.transform(rel, before[App(rel)]) == Some(after[Template(rel)])
    {
      assert Backed(c, before, Template(rel)) && Lookup(after, Template(rel)) == Wanted(c, before, Template(rel));
    }
    forall i | 0 <= i < |c.mappings|
      ensures var m := c.mappings[i];
              && m.sourceFile in before && m.templateFile in after
              && c.transform(m.rel, before[m.sourceFile]) == Some(after[m.templateFile])
    {
      MappingFound(c.mappings, i);
      var p := c.mappings[i].templateFile;
      assert Backed(c, before, p) && Lookup(after, p) == Wanted(c, before, p);
    }
    forall rel ensures Lookup(after, Template(rel)) == Wanted(c, before, Template(rel)) { }
    forall rel ensures SameAt(before, after, App(rel)) {
      assert Lookup(after, App(rel)) == Wanted(c, before, App(rel)) && SourceLike(c, App(rel));
      SourceStays(c, before, App(rel));
    }
    forall name | forall m | m in c.mappings :: m.templateFile != Other(name) ensures SameAt(before, after, Other(name)) {
      assert Lookup(after, Other(name)) == Wanted(c, before, Other(name));
    }
  }

  // What differs is what a sync changes.
  lemma DifferingIsChanged(c: Config, before: Tree, after: Tree, p: Path)
    requires ConfigOk(c) && Mirrors(c, before, after)
    requires forall p | Backed(c, before, p) :: Expected(c, before, p).Some?
    ensures p in Differing(c, before) <==> !SameAt(before, after, p)
  {
    DiffersIsCandidate(c, before, p);
    assert Lookup(after, p) == Wanted(c, before, p);
  }

  // A sync can succeed exactly if every app file in scope can be transformed and every mapped file is there and can be.
  lemma SoundMeansReadable(c: Config, t: Tree)
    requires ConfigOk(c)
    ensures Sound(c, t) <==>
              && (forall rel | App(rel) in t && c.inScope(rel) :: c.transform(rel, t[App(rel)]).Some?)
              && (forall i | 0 <= i < |c.mappings| ::
                    c.mappings[i].sourceFile in t && c.transform(c.mappings[i].rel, t[c.mappings[i].sourceFile]).Some?)
  {
    if Sound(c, t) {
      forall rel | App(rel) in t && c.inScope(rel) ensures c.transform(rel, t[App(rel)]).Some? {
        assert Backed(c, t, Template(rel));
      }
      forall i | 0 <= i < |c.mappings|
        ensures c.mappings[i].sourceFile in t && c.transform(c.mappings[i].rel, t[c.mappings[i].sourceFile]).Some?
      {
        MappingFound(c.mappings, i);
        assert Backed(c, t, c.mappings[i].templateFile);
      }
    } else {
      var p :| Backed(c, t, p) && Expected(c, t, p).None?;
      BackedIsTarget(c, t, p);
      if !p.Template? {
        var i :| 0 <= i < |c.mappings| && c.mappings[i].templateFile == p;
        MappingFound(c.mappings, i);
      }
    }
  }

  // ---------------------------------------------------------------------------------------------------------
  // Partly fixed trees
  // ---------------------------------------------------------------------------------------------------------

  // The paths in `done` are as they should be, the rest is untouched, and `count` of the paths in `done` differed.
  ghost predicate Progress(c: Config, start: Tree, now: Tree, done: set<Path>, count: nat) {
    && (forall p :: Lookup(now, p) == if p in done then Wanted(c, start, p) else Lookup(start, p))
    && (forall p | p in done :: !SourceLike(c, p))
    && count == |set p | p in done && Differs(c, start, p)|
  }

  lemma ProgressStart(c: Config, start: Tree)
    ensures Progress(c, start, start, {}, 0)
  {
    assert (set p | p in {} && Differs(c, start, p)) == {};
  }

  lemma ReadsSource(c: Config, start: Tree, now: Tree, done: set<Path>, count: nat, p: Path)
    requires Progress(c, start, now, done, count) && SourceLike(c, p)
    ensures Lookup(now, p) == Lookup(start, p)
  {
  }

  lemma ReadsUntouched(c: Config, start: Tree, now: Tree, done: set<Path>, count: nat, p: Path)
    requires Progress(c, start, now, done, count) && p !in done
    ensures Lookup(now, p) == Lookup(start, p)
  {
  }

  lemma Skip(c: Config, start: Tree, now: Tree, done: set<Path>, count: nat, p: Path)
    requires Progress(c, start, now, done, count) && p !in done && !SourceLike(c, p)
    requires Wanted(c, start, p) == Lookup(start, p) && !Differs(c, start, p)
    ensures Progress(c, start, now, done + {p}, count)
  {
    hide SourceLike, Differs, Wanted;
    assert (set q | q in done + {p} && Differs(c, start, q)) == (set q | q in done && Differs(c, start, q));
  }

  lemma CountMore(c: Config, start: Tree, done: set<Path>, p: Path)
    requires p !in done && Differs(c, start, p)
    ensures |set q | q in done + {p} && Differs(c, start, q)| == |set q | q in done && Differs(c, start, q)| + 1
  {
    hide Differs;
    assert (set q | q in done + {p} && Differs(c, start, q)) == (set q | q in done && Differs(c, start, q)) + {p};
  }

  lemma Fix(c: Config, start: Tree, now: Tree, done: set<Path>, count: nat, p: Path, now': Tree)
    requires Progress(c, start, now, done, count) && p !in done && !SourceLike(c, p) && Differs(c, start, p)
    requires forall q :: Lookup(now', q) == if q == p then Wanted(c, start, p) else Lookup(now, q)
    ensures Progress(c, start, now', done + {p}, count + 1)
  {
    CountMore(c, start, done, p);
    hide SourceLike, Differs, Wanted, Lookup;
  }

  lemma AllDone(c: Config, start: Tree, now: Tree, done: set<Path>, count: nat)
    requires ConfigOk(c) && Progress(c, start, now, done, count)
    requires forall p | Differs(c, start, p) :: p in done
    requires forall p | Backed(c, start, p) :: Expected(c, start, p).Some?
    ensures Mirrors(c, start, now) && count == |Differing(c, start)|
  {
    forall p ensures Lookup(now, p) == Wanted(c, start, p) { assert p !in done ==> !Differs(c, start, p); }
    forall p ensures p in Differing(c, start) <==> Differs(c, start, p) { DiffersIsCandidate(c, start, p); }
    assert (set p | p in done && Differs(c, start, p)) == Differing(c, start);
  }

  // ---------------------------------------------------------------------------------------------------------
  // The scripts
  // ---------------------------------------------------------------------------------------------------------

  // One reported drift tells the truth about its file.
  ghost predicate Reports(c: Config, t: Tree, d: Drift) {
    && Differs(c, t, d.templateFile)
    && (d.kind == ExtraInTemplate <==> Extra(c, t, d.templateFile))
    && (d.kind != ExtraInTemplate ==> OriginOf(c, t, d.templateFile) == Some((d.sourceFile, d.rel)))
    && (d.kind == MissingInTemplate <==> d.templateFile !in t)
  }

  ghost predicate ReportsAll(c: Config, t: Tree, drifts: seq<Drift>, checked: set<Path>) {
    && (forall d | d in drifts :: Reports(c, t, d) && d.templateFile in checked)
    && (forall i, j | 0 <= i < j < |drifts| :: drifts[i].templateFile != drifts[j].templateFile)
    && (forall p | p in checked && Differs(c, t, p) :: exists d :: d in drifts && d.templateFile == p)
  }

  lemma ReportsNothing(c: Config, t: Tree)
    ensures ReportsAll(c, t, [], {})
  {
  }

  lemma ReportSkip(c: Config, t: Tree, drifts: seq<Drift>, checked: set<Path>, p: Path)
    requires ReportsAll(c, t, drifts, checked) && !Differs(c, t, p)
    ensures ReportsAll(c, t, drifts, checked + {p})
  {
    hide Differs, Reports;
  }

  lemma ReportMore(c: Config, t: Tree, drifts: seq<Drift>, checked: set<Path>, d: Drift)
    requires ReportsAll(c, t, drifts, checked) && Reports(c, t, d) && d.templateFile !in checked
    ensures ReportsAll(c, t, drifts + [d], checked + {d.templateFile})
  {
    hide Differs, Reports;
    var more := drifts + [d];
    assert forall x :: x in more <==> x in drifts || x == d;
    forall p | p in checked + {d.templateFile} && Differs(c, t, p) ensures exists x :: x in more && x.templateFile == p {
      if p == d.templateFile { assert d in more; }
      else {
        var x :| x in drifts && x.templateFile == p;
        assert x in more;
      }
    }
  }

  // A complete report names every differing file once.
  lemma {:induction false} ReportIsComplete(c: Config, t: Tree, drifts: seq<Drift>, checked: set<Path>)
    requires ConfigOk(c) && ReportsAll(c, t, drifts, checked) && forall p | Differs(c, t, p) :: p in checked
    ensures |drifts| == |Differing(c, t)|
    ensures forall p :: Differs(c, t, p) <==> exists d :: d in drifts && d.templateFile == p
  {
    hide Differs, Backed, Extra;
    var named := set d | d in drifts :: d.templateFile;
    forall p ensures p in Differing(c, t) <==> p in named { DiffersIsCandidate(c, t, p); }
    assert named == Differing(c, t);
    NamedOnce(drifts);
  }

  lemma {:induction false} NamedOnce(drifts: seq<Drift>)
    requires forall i, j | 0 <= i < j < |drifts| :: drifts[i].templateFile != drifts[j].templateFile
    ensures |set d | d in drifts :: d.templateFile| == |drifts|
  {
    if drifts != [] {
      var n := |drifts| - 1;
      NamedOnce(drifts[..n]);
      var rest := set d | d in drifts[..n] :: d.templateFile;
      assert drifts[n].templateFile !in rest;
      assert (set d | d in drifts :: d.templateFile) == rest + {drifts[n].templateFile} by {
        assert forall d | d in drifts :: d in drifts[..n] || d == drifts[n];
        assert forall d | d in drifts[..n] :: d in drifts;
        assert drifts[n] in drifts;
      }
    }
  }

  // A template file that exists but has nothing it could be compared with.
  predicate Unreadable(c: Config, t: Tree, p: Path) {
    Backed(c, t, p) && p in t && Expected(c, t, p).None?
  }

  function ExpectedOf(c: Config, t: Tree, p: Path): Option<string> {
    if Backed(c, t, p) then Expected(c, t, p) else None
  }

  // A report of all drifts: true, complete, and one for each file.
  ghost predicate Complete(c: Config, t: Tree, drifts: seq<Drift>) {
    && ReportsAll(c, t, drifts, set d | d in drifts :: d.templateFile)
    && (forall p :: Differs(c, t, p) <==> exists d :: d in drifts && d.templateFile == p)
  }

  // Every mapping's source is there and every transform succeeds.
  ghost predicate Sound(c: Config, t: Tree) {
    forall p | Backed(c, t, p) :: Expected(c, t, p).Some?
  }

  lemma {:induction false} MappingFound(mappings: seq<Mapping>, i: nat)
    requires i < |mappings|
    requires forall j, k | 0 <= j < k < |mappings| :: mappings[j].templateFile != mappings[k].templateFile
    ensures MappingTo(mappings, mappings[i].templateFile) == Some(mappings[i])
  {
    if i > 0 { MappingFound(mappings[1..], i - 1); }
  }

  lemma BackedIsTarget(c: Config, t: Tree, p: Path)
    requires ConfigOk(c)
    ensures Backed(c, t, p) ==> !SourceLike(c, p)
    ensures Backed(c, t, p) ==> var o := OriginOf(c, t, p).value; SourceLike(c, o.0)
    ensures Backed(c, t, p) && !p.Template? ==> exists i :: 0 <= i < |c.mappings| && c.mappings[i].templateFile == p
    ensures Extra(c, t, p) ==> !SourceLike(c, p) && !Backed(c, t, p)
  {
    if SourceLike(c, p) { SourceStays(c, t, p); }
  }

  // The files named by the first `i` drifts of a list.
  ghost predicate NamedBy(drifts: seq<Drift>, i: nat, done: set<Path>) {
    i <= |drifts| && forall p :: p in done <==> exists k :: 0 <= k < i && drifts[k].templateFile == p
  }

  lemma NoneNamed(drifts: seq<Drift>)
    ensures NamedBy(drifts, 0, {})
  {
  }

  lemma NameNext(c: Config, t: Tree, drifts: seq<Drift>, i: nat, done: set<Path>)
    requires Complete(c, t, drifts) && NamedBy(drifts, i, done) && i < |drifts|
    ensures Reports(c, t, drifts[i]) && drifts[i].templateFile !in done
    ensures NamedBy(drifts, i + 1, done + {drifts[i].templateFile})
  {
    hide Reports, Differs;
    assert drifts[i] in drifts;
    var more := done + {drifts[i].templateFile};
    forall p ensures p in more <==> exists k :: 0 <= k < i + 1 && drifts[k].templateFile == p {
      if p in done {
        var k :| 0 <= k < i && drifts[k].templateFile == p;
        assert 0 <= k < i + 1 && drifts[k].templateFile == p;
      }
    }
  }

  lemma AllNamed(c: Config, t: Tree, drifts: seq<Drift>, done: set<Path>)
    requires Complete(c, t, drifts) && NamedBy(drifts, |drifts|, done)
    ensures forall p | Differs(c, t, p) :: p in done
  {
    hide Differs;
    forall p | Differs(c, t, p) ensures p in done {
      var d :| d in drifts && d.templateFile == p;
      var k :| 0 <= k < |drifts| && drifts[k] == d;
      assert drifts[k].templateFile == p;
    }
  }

  lemma FailedDrift(c: Config, t: Tree, d: Drift)
    requires Reports(c, t, d) && d.kind != ExtraInTemplate && ExpectedOf(c, t, d.templateFile).None?
    ensures !Sound(c, t)
  {
    assert Backed(c, t, d.templateFile);
  }

  // Every file of `done` that has a source can be made from it.
  ghost predicate Readable(c: Config, t: Tree, done: set<Path>) {
    forall p | p in done && Backed(c, t, p) :: Expected(c, t, p).Some?
  }

  lemma NoneRead(c: Config, t: Tree)
    ensures Readable(c, t, {})
  {
  }

  lemma ReadableStep(c: Config, t: Tree, done: set<Path>, d: Drift)
    requires ConfigOk(c) && Readable(c, t, done) && Reports(c, t, d)
    requires d.kind != ExtraInTemplate ==> ExpectedOf(c, t, d.templateFile).Some?
    ensures Readable(c, t, done + {d.templateFile})
  {
    BackedIsTarget(c, t, d.templateFile);
  }

  // What does not differ is readable anyway, so a tree whose drifts can all be fixed is sound.
  lemma ReadableIsSound(c: Config, t: Tree, done: set<Path>)
    requires Readable(c, t, done) && forall p | Differs(c, t, p) :: p in done
    ensures Sound(c, t)
  {
    forall p | Backed(c, t, p) ensures Expected(c, t, p).Some? {
      assert Differs(c, t, p) ==> p in done;
    }
  }

  lemma SoundSpelled(c: Config, t: Tree)
    requires Sound(c, t)
    ensures forall p | Backed(c, t, p) :: Expected(c, t, p).Some?
  {
  }

  // The targets of the first `i` mappings are done, and could be.
  ghost predicate Mapped(c: Config, t: Tree, before: set<Path>, i: nat, done: set<Path>) {
    && i <= |c.mappings| && (forall p: Path | p in before :: p.Template?)
    && done == before + (set m | m in c.mappings[..i] :: m.templateFile)
    && forall m | m in c.mappings[..i] :: ExpectedOf(c, t, m.templateFile).Some?
  }

  lemma NoneMapped(c: Config, t: Tree, before: set<Path>)
    requires forall p: Path | p in before :: p.Template?
    ensures Mapped(c, t, before, 0, before)
  {
  }

  lemma MapNext(c: Config, t: Tree, before: set<Path>, i: nat, done: set<Path>)
    requires ConfigOk(c) && Mapped(c, t, before, i, done) && i < |c.mappings|
    ensures var m := c.mappings[i];
            && OriginOf(c, t, m.templateFile) == Some((m.sourceFile, m.rel)) && m.templateFile !in done
            && (ExpectedOf(c, t, m.templateFile).Some? ==> Mapped(c, t, before, i + 1, done + {m.templateFile}))
            && (ExpectedOf(c, t, m.templateFile).None? ==> !Sound(c, t))
            && ExpectedOf(c, t, m.templateFile) == Expected(c, t, m.templateFile)
  {
    var m := c.mappings[i];
    assert c.mappings[..i + 1] == c.mappings[..i] + [m];
    MappingFound(c.mappings, i);
    assert Backed(c, t, m.templateFile);
  }

  lemma AllMapped(c: Config, t: Tree, before: set<Path>, done: set<Path>)
    requires Mapped(c, t, before, |c.mappings|, done)
    ensures done == before + Targets(c) && forall p | p in Targets(c) :: ExpectedOf(c, t, p).Some?
  {
    assert c.mappings[..|c.mappings|] == c.mappings;
  }

  class Mirror {
    const c: Config
    var files: Tree

    constructor (c: Config, files: Tree)
      ensures this.c == c && this.files == files
    {
      this.c, this.files := c, files;
    }

    // The relative names of the app's files in scope, each once.
    method CollectSourceFiles() returns (rels: seq<string>)
      ensures Distinct(rels) && forall r :: r in rels <==> App(r) in files && c.inScope(r)
    {
      rels := [];
      var left := files.Keys;
      while left != {}
        invariant left <= files.Keys && Distinct(rels)
        invariant forall r :: r in rels <==> App(r) in files && App(r) !in left && c.inScope(r)
        decreases left
      {
        var p :| p in left;
        left := left - {p};
        if p.App? && c.inScope(p.rel) { rels := rels + [p.rel]; }
      }
    }

    method CollectTemplateFiles() returns (rels: seq<string>)
      ensures Distinct(rels) && forall r :: r in rels <==> Template(r) in files && c.inScope(r)
    {
      rels := [];
      var left := files.Keys;
      while left != {}
        invariant left <= files.Keys && Distinct(rels)
        invariant forall r :: r in rels <==> Template(r) in files && Template(r) !in left && c.inScope(r)
        decreases left
      {
        var p :| p in left;
        left := left - {p};
        if p.Template? && c.inScope(p.rel) { rels := rels + [p.rel]; }
      }
    }

    // `readFileSync` of a source, then its transform.
    method ReadExpected(sourceFile: Path, rel: string) returns (r: Result<string>)
      ensures r.Ok? <==> sourceFile in files && c.transform(rel, files[sourceFile]).Some?
      ensures r.Ok? ==> c.transform(rel, files[sourceFile]) == Some(r.value)
    {
      if sourceFile !in files { return Err(FileNotFound(sourceFile)); }
      var content := c.transform(rel, files[sourceFile]);
      r := if content.Some? then Ok(content.value) else Err(TransformFailed(rel));
    }

    // One comparison of the drift check.
    method CheckFile(sourceFile: Path, templateFile: Path, rel: string, drifts: seq<Drift>, ghost checked: set<Path>)
      returns (r: Result<seq<Drift>>)
      requires OriginOf(c, files, templateFile) == Some((sourceFile, rel)) && templateFile !in checked
      requires ReportsAll(c, files, drifts, checked)
      ensures r.Err? <==> templateFile in files && Expected(c, files, templateFile).None?
      ensures r.Ok? ==> ReportsAll(c, files, r.value, checked + {templateFile})
    {
      if templateFile !in files {
        var d := Drift(MissingInTemplate, sourceFile, templateFile, rel);
        ReportMore(c, files, drifts, checked, d);
        return Ok(drifts + [d]);
      }
      var expected := ReadExpected(sourceFile, rel);
      if expected.Err? { return Err(expected.failure); }
      if expected.value != files[templateFile] {
        var d := Drift(ContentMismatch, sourceFile, templateFile, rel);
        ReportMore(c, files, drifts, checked, d);
        return Ok(drifts + [d]);
      }
      ReportSkip(c, files, drifts, checked, templateFile);
      r := Ok(drifts);
    }

    method CheckSources() returns (r: Result<seq<Drift>>, ghost checked: set<Path>)
      requires ConfigOk(c)
      ensures r.Err? ==> exists p :: Unreadable(c, files, p)
      ensures r.Ok? ==> ReportsAll(c, files, r.value, checked) && forall p | p in checked :: !Unreadable(c, files, p)
      ensures r.Ok? ==> forall p: Path :: p in checked <==> p.Template? && Backed(c, files, p)
    {
      hide ReportsAll;
      var rels := CollectSourceFiles();
      checked := {};
      ReportsNothing(c, files);
      var drifts: seq<Drift> := [];
      var i := 0;
      while i < |rels|
        invariant 0 <= i <= |rels| && ReportsAll(c, files, drifts, checked)
        invariant forall p: Path :: p in checked <==> p.Template? && p.rel in rels[..i]
        invariant forall p | p in checked :: !Unreadable(c, files, p)
      {
        var rel := rels[i];
        assert rel in rels && rels[..i + 1] == rels[..i] + [rel];
        var step := CheckFile(App(rel), Template(rel), rel, drifts, checked);
        if step.Err? {
          assert Unreadable(c, files, Template(rel));
          return Err(step.failure), checked;
        }
        drifts := step.value;
        checked := checked + {Template(rel)};
        i := i + 1;
      }
      assert rels[..i] == rels;
      r := Ok(drifts);
    }

    method CheckExtras(start: seq<Drift>, ghost before: set<Path>) returns (drifts: seq<Drift>, ghost checked: set<Path>)
      requires ConfigOk(c) && ReportsAll(c, files, start, before)
      requires forall p: Path :: p in before <==> p.Template? && Backed(c, files, p)
      ensures ReportsAll(c, files, drifts, checked)
      ensures forall p: Path :: p in checked <==> p in before || Extra(c, files, p)
    {
      hide ReportsAll;
      var sourceRels := CollectSourceFiles();
      var rels := CollectTemplateFiles();
      drifts, checked := start, before;
      var i := 0;
      while i < |rels|
        invariant 0 <= i <= |rels| && ReportsAll(c, files, drifts, checked)
        invariant forall p: Path :: p in checked <==> p in before || (Extra(c, files, p) && p.rel in rels[..i])
      {
        var rel := rels[i];
        assert rel in rels && rels[..i + 1] == rels[..i] + [rel];
        if rel !in c.templateOnly && rel !in sourceRels {
          var d := Drift(ExtraInTemplate, App(rel), Template(rel), rel);
          ReportMore(c, files, drifts, checked, d);
          drifts := drifts + [d];
          checked := checked + {Template(rel)};
        }
        i := i + 1;
      }
      assert rels[..i] == rels;
    }

    method CheckMappings(start: seq<Drift>, ghost before: set<Path>) returns (r: Result<seq<Drift>>, ghost checked: set<Path>)
      requires ConfigOk(c) && ReportsAll(c, files, start, before) && forall p: Path | p in before :: p.Template?
      ensures r.Err? ==> exists p :: Unreadable(c, files, p)
      ensures r.Ok? ==> ReportsAll(c, files, r.value, checked)
      ensures r.Ok? ==> checked == before + Targets(c) && forall p | p in Targets(c) :: !Unreadable(c, files, p)
    {
      hide ReportsAll;
      checked := before;
      var drifts := start;
      var i := 0;
      while i < |c.mappings|
        invariant 0 <= i <= |c.mappings| && ReportsAll(c, files, drifts, checked)
        invariant checked == before + (set m | m in c.mappings[..i] :: m.templateFile)
        invariant forall m | m in c.mappings[..i] :: !Unreadable(c, files, m.templateFile)
      {
        var m := c.mappings[i];
        assert c.mappings[..i + 1] == c.mappings[..i] + [m];
        MappingFound(c.mappings, i);
        var step := CheckFile(m.sourceFile, m.templateFile, m.rel, drifts, checked);
        if step.Err? {
          assert Unreadable(c, files, m.templateFile);
          return Err(step.failure), checked;
        }
        drifts := step.value;
        checked := checked + {m.templateFile};
        i := i + 1;
      }
      assert c.mappings[..i] == c.mappings;
      r := Ok(drifts);
    }

    // The drift check names every file that is not as it should be, once and truthfully. It fails exactly when a
    // template file that exists has nothing it could be compared with.
    method ComputeDrift() returns (r: Result<seq<Drift>>)
      requires ConfigOk(c)
      ensures r.Err? <==> exists p :: Unreadable(c, files, p)
      ensures r.Ok? ==> Complete(c, files, r.value) && |r.value| == |Differing(c, files)|
    {
      ghost var checked: set<Path>;
      r, checked := CheckSources();
      if r.Err? { return; }
      var drifts: seq<Drift>;
      ghost var sources := checked;
      drifts, checked := CheckExtras(r.value, checked);
      r, checked := CheckMappings(drifts, checked);
      if r.Ok? {
        forall p ensures !Unreadable(c, files, p) && (Differs(c, files, p) ==> p in checked) { BackedIsTarget(c, files, p); }
        ReportIsComplete(c, files, r.value, checked);
      }
    }

    // One rewrite of the full sync.
    method SyncFile(sourceFile: Path, templateFile: Path, rel: string, updated: nat, ghost start: Tree, ghost done: set<Path>)
      returns (r: Result<nat>)
      requires ConfigOk(c) && OriginOf(c, start, templateFile) == Some((sourceFile, rel)) && templateFile !in done
      requires Progress(c, start, files, done, updated)
      modifies `files
      ensures r.Err? <==> Expected(c, start, templateFile).None?
      ensures r.Ok? ==> Progress(c, start, files, done + {templateFile}, r.value)
    {
      BackedIsTarget(c, start, templateFile);
      ReadsSource(c, start, files, done, updated, sourceFile);
      ReadsUntouched(c, start, files, done, updated, templateFile);
      hide Progress;
      var expected := ReadExpected(sourceFile, rel);
      if expected.Err? { return Err(expected.failure); }
      if templateFile in files && files[templateFile] == expected.value {
        Skip(c, start, files, done, updated, templateFile);
        return Ok(updated);
      }
      Fix(c, start, files, done, updated, templateFile, files[templateFile := expected.value]);
      files := files[templateFile := expected.value];
      r := Ok(updated + 1);
    }

    // Removal of a file nothing stands behind.
    method RemoveFile(templateFile: Path, updated: nat, ghost start: Tree, ghost done: set<Path>) returns (count: nat)
      requires ConfigOk(c) && Extra(c, start, templateFile) && templateFile !in done
      requires Progress(c, start, files, done, updated)
      modifies `files
      ensures Progress(c, start, files, done + {templateFile}, count)
    {
      BackedIsTarget(c, start, templateFile);
      Fix(c, start, files, done, updated, templateFile, files - {templateFile});
      files := files - {templateFile};
      count := updated + 1;
    }

    method SyncSources(rels: seq<string>, ghost start: Tree) returns (r: Result<nat>, ghost done: set<Path>)
      requires ConfigOk(c) && files == start && Distinct(rels)
      requires forall q :: q in rels <==> App(q) in start && c.inScope(q)
      modifies `files
      ensures r.Err? ==> !Sound(c, start)
      ensures r.Ok? ==> Progress(c, start, files, done, r.value) && forall p | p in done :: ExpectedOf(c, start, p).Some?
      ensures r.Ok? ==> forall p: Path :: p in done <==> p.Template? && Backed(c, start, p)
    {
      ProgressStart(c, start);
      hide Progress;
      done := {};
      var updated: nat := 0;
      var i := 0;
      while i < |rels|
        invariant 0 <= i <= |rels| && Progress(c, start, files, done, updated)
        invariant forall p: Path :: p in done <==> p.Template? && p.rel in rels[..i]
        invariant forall p | p in done :: ExpectedOf(c, start, p).Some?
      {
        var rel := rels[i];
        assert rel in rels && rels[..i + 1] == rels[..i] + [rel];
        r := SyncFile(App(rel), Template(rel), rel, updated, start, done);
        if r.Err? {
          assert Backed(c, start, Template(rel));
          return;
        }
        updated := r.value;
        done := done + {Template(rel)};
        i := i + 1;
      }
      assert rels[..i] == rels;
      r := Ok(updated);
    }

    method RemoveExtras(rels: seq<string>, sourceRels: seq<string>, count: nat, ghost start: Tree, ghost before: set<Path>)
      returns (updated: nat, ghost done: set<Path>)
      requires ConfigOk(c) && Distinct(rels) && Progress(c, start, files, before, count)
      requires forall q :: q in sourceRels <==> App(q) in start && c.inScope(q)
      requires forall q :: q in rels <==> Template(q) in start && c.inScope(q)
      requires forall p: Path :: p in before <==> p.Template? && Backed(c, start, p)
      modifies `files
      ensures Progress(c, start, files, done, updated)
      ensures forall p: Path :: p in done <==> p in before || Extra(c, start, p)
    {
      hide Progress;
      updated, done := count, before;
      var i := 0;
      while i < |rels|
        invariant 0 <= i <= |rels| && Progress(c, start, files, done, updated)
        invariant forall p: Path :: p in done <==> p in before || (Extra(c, start, p) && p.rel in rels[..i])
      {
        var rel := rels[i];
        assert rel in rels && rels[..i + 1] == rels[..i] + [rel];
        if rel !in c.templateOnly && rel !in sourceRels {
          updated := RemoveFile(Template(rel), updated, start, done);
          done := done + {Template(rel)};
        }
        i := i + 1;
      }
      assert rels[..i] == rels;
    }

    method SyncMappings(count: nat, ghost start: Tree, ghost before: set<Path>) returns (r: Result<nat>, ghost done: set<Path>)
      requires ConfigOk(c) && Progress(c, start, files, before, count) && forall p: Path | p in before :: p.Template?
      modifies `files
      ensures r.Err? ==> !Sound(c, start)
      ensures r.Ok? ==> Progress(c, start, files, done, r.value) && done == before + Targets(c)
      ensures r.Ok? ==> forall p | p in Targets(c) :: ExpectedOf(c, start, p).Some?
    {
      done := before;
      var updated := count;
      NoneMapped(c, start, before);
      hide Progress, ConfigOk, Mapped, Sound, ExpectedOf, Targets;
      var i := 0;
      while i < |c.mappings|
        invariant 0 <= i <= |c.mappings| && Progress(c, start, files, done, updated)
        invariant Mapped(c, start, before, i, done)
      {
        var m := c.mappings[i];
        MapNext(c, start, before, i, done);
        r := SyncFile(m.sourceFile, m.templateFile, m.rel, updated, start, done);
        if r.Err? { return; }
        updated := r.value;
        done := done + {m.templateFile};
        i := i + 1;
      }
      AllMapped(c, start, before, done);
      r := Ok(updated);
    }

    // The full sync succeeds exactly when every source can be read and transformed; it then leaves the mirror as it
    // should be and counts exactly the files that differed.
    method ApplyFullSync() returns (r: Result<nat>)
      requires ConfigOk(c)
      modifies `files
      ensures r.Ok? <==> Sound(c, old(files))
      ensures r.Ok? ==> Mirrors(c, old(files), files) && r.value == |Differing(c, old(files))|
    {
      ghost var start := files;
      var sourceRels := CollectSourceFiles();
      var templateRels := CollectTemplateFiles();
      ghost var done: set<Path>;
      r, done := SyncSources(sourceRels, start);
      if r.Err? { return; }
      var updated: nat;
      updated, done := RemoveExtras(templateRels, sourceRels, r.value, start, done);
      r, done := SyncMappings(updated, start, done);
      if r.Ok? {
        forall p ensures (Differs(c, start, p) ==> p in done) && (Backed(c, start, p) ==> Expected(c, start, p).Some?) {
          BackedIsTarget(c, start, p);
        }
        AllDone(c, start, files, done, r.value);
      }
    }

    // The drift-driven fix works off a list of drifts.
    method ApplySync(drifts: seq<Drift>) returns (r: Result<nat>)
      requires ConfigOk(c) && Complete(c, files, drifts)
      modifies `files
      ensures r.Ok? <==> Sound(c, old(files))
      ensures r.Ok? ==> r.value == |drifts| && Mirrors(c, old(files), files)
    {
      ghost var start := files;
      ghost var done: set<Path> := {};
      hide *;
      ProgressStart(c, start);
      NoneNamed(drifts);
      NoneRead(c, start);
      var updated: nat := 0;
      var i := 0;
      while i < |drifts|
        invariant 0 <= i <= |drifts| && updated == i && Progress(c, start, files, done, updated)
        invariant NamedBy(drifts, i, done) && Readable(c, start, done)
      {
        var drift := drifts[i];
        NameNext(c, start, drifts, i, done);
        if drift.kind == ExtraInTemplate {
          updated := FixExtra(drift, updated, start, done);
        } else {
          r := FixDrift(drift, updated, start, done);
          if r.Err? {
            FailedDrift(c, start, drift);
            return;
          }
          updated := r.value;
        }
        ReadableStep(c, start, done, drift);
        done := done + {drift.templateFile};
        i := i + 1;
      }
      AllNamed(c, start, drifts, done);
      ReadableIsSound(c, start, done);
      SoundSpelled(c, start);
      AllDone(c, start, files, done, updated);
      r := Ok(updated);
    }

    method FixExtra(drift: Drift, updated: nat, ghost start: Tree, ghost done: set<Path>) returns (count: nat)
      requires ConfigOk(c) && Reports(c, start, drift) && drift.kind == ExtraInTemplate && drift.templateFile !in done
      requires Progress(c, start, files, done, updated)
      modifies `files
      ensures count == updated + 1 && Progress(c, start, files, done + {drift.templateFile}, count)
    {
      BackedIsTarget(c, start, drift.templateFile);
      Fix(c, start, files, done, updated, drift.templateFile, files - {drift.templateFile});
      files := files - {drift.templateFile};
      count := updated + 1;
    }

    method FixDrift(drift: Drift, updated: nat, ghost start: Tree, ghost done: set<Path>) returns (r: Result<nat>)
      requires ConfigOk(c) && Reports(c, start, drift) && drift.kind != ExtraInTemplate && drift.templateFile !in done
      requires Progress(c, start, files, done, updated)
      modifies `files
      ensures r.Err? <==> ExpectedOf(c, start, drift.templateFile).None?
      ensures r.Ok? ==> r.value == updated + 1 && Progress(c, start, files, done + {drift.templateFile}, r.value)
    {
      BackedIsTarget(c, start, drift.templateFile);
      ReadsSource(c, start, files, done, updated, drift.sourceFile);
      hide Progress;
      var expected := ReadExpected(drift.sourceFile, drift.rel);
      if expected.Err? { return Err(expected.failure); }
      Fix(c, start, files, done, updated, drift.templateFile, files[drift.templateFile := expected.value]);
      files := files[drift.templateFile := expected.value];
      r := Ok(updated + 1);
    }
  }

  // Check and fix agree: whenever every source can be read and transformed, a full sync reports as many updates as the
  // check reports drifts, the check is silent afterwards, and fixing drift by drift arrives at the same tree.
  method CheckAndFixAgree(full: Mirror, stepwise: Mirror) returns (drifts: seq<Drift>, updated: nat, again: seq<Drift>)
    requires full != stepwise && full.c == stepwise.c && full.files == stepwise.files && ConfigOk(full.c)
    requires Sound(full.c, full.files)
    modifies full, stepwise
    ensures updated == |drifts| && again == [] && full.files == stepwise.files
    ensures forall p | !Backed(full.c, old(full.files), p) && !Extra(full.c, old(full.files), p) ::
              Lookup(full.files, p) == Lookup(old(full.files), p)
    ensures forall p: Path | p.App? :: Lookup(full.files, p) == Lookup(old(full.files), p)
    ensures forall m | m in full.c.mappings :: Lookup(full.files, m.sourceFile) == Lookup(old(full.files), m.sourceFile)
  {
    ghost var start := full.files;
    var checked := stepwise.ComputeDrift();
    drifts := checked.value;
    var fixed := stepwise.ApplySync(drifts);
    var synced := full.ApplyFullSync();
    updated := synced.value;
    hide *;
    MirrorHasNoDrift(full.c, start, full.files);
    MirrorIsUnique(full.c, start, full.files, stepwise.files);
    NoDriftNothingUnreadable(full.c, full.files);
    var recheck := full.ComputeDrift();
    again := recheck.value;
  }
}

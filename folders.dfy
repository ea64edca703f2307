/** Folder resolution (`find_dossier_path`): a top-down `os.walk` under the
    base directory, testing every subdirectory name for the case number. The
    directory tree and the order in which the operating system lists each
    directory are inputs. */
module Folders {
  import opened Text

  /** A directory as `os.walk` sees it. `entered` says whether `os.walk`
      lists its contents when it reaches it: false for a directory it cannot
      read and, below the base, for a symbolic link, which `os.walk` names
      among its parent's subdirectories but does not follow. */
  datatype Dir = Dir(name: string, entered: bool, subdirs: seq<Dir>)

  /** One triple yielded by `os.walk`, without the file names: the path of
      the directory and the names of its subdirectories in listing order. */
  datatype Visit = Visit(root: string, dirs: seq<string>)

  /** A name tested by the inner loop, with the `root` it is tested under. */
  datatype Candidate = Candidate(root: string, name: string)

  function Names(ds: seq<Dir>): (names: seq<string>)
    ensures |names| == |ds|
    ensures forall i :: 0 <= i < |ds| ==> names[i] == ds[i].name
  {
    if ds == [] then [] else [ds[0].name] + Names(ds[1..])
  }

  /** `os.walk(root)` in its default top-down order, for directory `d`
      found under the path `root`: the directory itself, then the walk of
      each subdirectory in listing order. */
  function Walk(root: string, d: Dir): seq<Visit>
    decreases d, 1
  {
    if d.entered then [Visit(root, Names(d.subdirs))] + WalkAll(root, d.subdirs) else []
  }

  /** The walks of the subdirectories `ds` of the directory at `root`. */
  function WalkAll(root: string, ds: seq<Dir>): seq<Visit>
    decreases ds, 0
  {
    if ds == [] then []
    else Walk(Join(root, ds[0].name), ds[0]) + WalkAll(root, ds[1..])
  }

  /** The names of one visit's `dirs`, each paired with the visit's `root`. */
  function VisitCandidates(v: Visit): seq<Candidate>
  {
    seq(|v.dirs|, i requires 0 <= i < |v.dirs| => Candidate(v.root, v.dirs[i]))
  }

  /** The names in the order the two nested loops of `find_dossier_path`
      test them: for each walked directory, each of its subdirectories. */
  function Candidates(visits: seq<Visit>): seq<Candidate>
  {
    if visits == [] then [] else VisitCandidates(visits[0]) + Candidates(visits[1..])
  }

  /** The first candidate at or after `from` whose name contains `num`. */
  function FirstNamed(cs: seq<Candidate>, num: string, from: nat): (r: Option<nat>)
    ensures r.Some? ==> from <= r.value < |cs| && Contains(cs[r.value].name, num)
    ensures r.Some? ==> forall m :: from <= m < r.value ==> !Contains(cs[m].name, num)
    ensures r.None? ==> forall m :: from <= m < |cs| ==> !Contains(cs[m].name, num)
    decreases |cs| - from
  {
    if from >= |cs| then None
    else if Contains(cs[from].name, num) then Some(from)
    else FirstNamed(cs, num, from + 1)
  }

  /** `find_dossier_path(base_path, num)` over the tree `base` found at
      `basePath`: the joined path of the first subdirectory, in walk order,
      whose name contains `num`. */
  function FindDossierPath(basePath: string, base: Dir, num: string): (r: Option<string>)
    ensures
      var cs := Candidates(Walk(basePath, base));
      r.Some? <==> exists n :: 0 <= n < |cs| && Contains(cs[n].name, num)
    ensures
      var cs := Candidates(Walk(basePath, base));
      r.Some? ==>
        exists n ::
          && 0 <= n < |cs| && Contains(cs[n].name, num)
          && r.value == Join(cs[n].root, cs[n].name)
          && forall m :: 0 <= m < n ==> !Contains(cs[m].name, num)
  {
    var cs := Candidates(Walk(basePath, base));
    match FirstNamed(cs, num, 0)
    case Some(n) => Some(Join(cs[n].root, cs[n].name))
    case None => None
  }

  // ---------------------------------------------------------------------
  // Which directories are tested

  /** Some directory strictly below `d` that `os.walk` reaches has a name
      containing `num`. The directory `d` itself is not considered. */
  ghost predicate SomeSubdirNamed(d: Dir, num: string)
    decreases d, 1
  {
    d.entered && SomeNamedAmong(d.subdirs, num)
  }

  /** One of `ds`, or a directory `os.walk` reaches below one of them, has a
      name containing `num`. */
  ghost predicate SomeNamedAmong(ds: seq<Dir>, num: string)
    decreases ds, 0
  {
    ds != [] && (Contains(ds[0].name, num) || SomeSubdirNamed(ds[0], num) || SomeNamedAmong(ds[1..], num))
  }

  ghost predicate AnyNamed(cs: seq<Candidate>, num: string)
  {
    exists n :: 0 <= n < |cs| && Contains(cs[n].name, num)
  }

  lemma AnyNamedAppend(a: seq<Candidate>, b: seq<Candidate>, num: string)
    ensures AnyNamed(a + b, num) <==> AnyNamed(a, num) || AnyNamed(b, num)
  {
    if AnyNamed(a + b, num) {
      var n :| 0 <= n < |a + b| && Contains((a + b)[n].name, num);
      if n >= |a| {
        assert b[n - |a|] == (a + b)[n];
      }
    }
    if AnyNamed(a, num) {
      var n :| 0 <= n < |a| && Contains(a[n].name, num);
      assert (a + b)[n] == a[n];
    }
    if AnyNamed(b, num) {
      var n :| 0 <= n < |b| && Contains(b[n].name, num);
      assert (a + b)[|a| + n] == b[n];
    }
  }

  lemma {:induction false} CandidatesAppend(a: seq<Visit>, b: seq<Visit>)
    ensures Candidates(a + b) == Candidates(a) + Candidates(b)
  {
    if a == [] {
      assert a + b == b;
    } else {
      assert (a + b)[1..] == a[1..] + b;
      CandidatesAppend(a[1..], b);
    }
  }

  /** The walk tests a name containing `num` exactly when some directory
      below `d` has one. */
  lemma {:induction false} WalkTestsSubdirs(root: string, d: Dir, num: string)
    ensures AnyNamed(Candidates(Walk(root, d)), num) <==> SomeSubdirNamed(d, num)
    decreases d, 1
  {
    if d.entered {
      var v := Visit(root, Names(d.subdirs));
      CandidatesAppend([v], WalkAll(root, d.subdirs));
      assert Candidates([v]) == VisitCandidates(v);
      AnyNamedAppend(VisitCandidates(v), Candidates(WalkAll(root, d.subdirs)), num);
      WalkAllTestsAmong(root, d.subdirs, num);
      NamesTestedAmong(root, d.subdirs, num);
    }
  }

  /** The first walked directory tests the names of its subdirectories. */
  lemma {:induction false} NamesTestedAmong(root: string, ds: seq<Dir>, num: string)
    ensures AnyNamed(VisitCandidates(Visit(root, Names(ds))), num) <==>
      exists i :: 0 <= i < |ds| && Contains(ds[i].name, num)
  {
    var cs := VisitCandidates(Visit(root, Names(ds)));
    if AnyNamed(cs, num) {
      var n :| 0 <= n < |cs| && Contains(cs[n].name, num);
      assert Contains(ds[n].name, num);
    }
    if exists i :: 0 <= i < |ds| && Contains(ds[i].name, num) {
      var i :| 0 <= i < |ds| && Contains(ds[i].name, num);
      assert cs[i].name == ds[i].name;
    }
  }

  /** The walks of `ds` test a name containing `num`, or `ds` itself has
      one, exactly when some directory among or below `ds` has one. */
  lemma {:induction false} WalkAllTestsAmong(root: string, ds: seq<Dir>, num: string)
    ensures AnyNamed(Candidates(WalkAll(root, ds)), num)
            || (exists i :: 0 <= i < |ds| && Contains(ds[i].name, num))
        <==> SomeNamedAmong(ds, num)
    decreases ds, 0
  {
    if ds != [] {
      var w0 := Walk(Join(root, ds[0].name), ds[0]);
      CandidatesAppend(w0, WalkAll(root, ds[1..]));
      AnyNamedAppend(Candidates(w0), Candidates(WalkAll(root, ds[1..])), num);
      WalkTestsSubdirs(Join(root, ds[0].name), ds[0], num);
      WalkAllTestsAmong(root, ds[1..], num);
      if exists i :: 0 <= i < |ds| && Contains(ds[i].name, num) {
        var i :| 0 <= i < |ds| && Contains(ds[i].name, num);
        if i > 0 {
          assert ds[1..][i - 1] == ds[i];
        }
      }
      if exists i :: 0 <= i < |ds[1..]| && Contains(ds[1..][i].name, num) {
        var i :| 0 <= i < |ds[1..]| && Contains(ds[1..][i].name, num);
        assert ds[i + 1] == ds[1..][i];
      }
    }
  }

  /** No folder is found exactly when no directory below the base has a
      name containing the number; the base's own name, and the base path,
      are never tested. */
  lemma NotFoundIffNoSubdir(basePath: string, base: Dir, num: string)
    ensures FindDossierPath(basePath, base, num).None? <==> !SomeSubdirNamed(base, num)
  {
    WalkTestsSubdirs(basePath, base, num);
  }

  /** Top-down order: every direct subdirectory of the base is tested
      before anything deeper, so when one of them matches, the first such
      one is returned, even if a deeper directory listed earlier matches. */
  lemma ChildrenBeforeGrandchildren(basePath: string, base: Dir, num: string, i: nat)
    requires base.entered && i < |base.subdirs|
    requires Contains(base.subdirs[i].name, num)
    requires forall j :: 0 <= j < i ==> !Contains(base.subdirs[j].name, num)
    ensures FindDossierPath(basePath, base, num) == Some(Join(basePath, base.subdirs[i].name))
  {
    var v := Visit(basePath, Names(base.subdirs));
    var rest := WalkAll(basePath, base.subdirs);
    CandidatesAppend([v], rest);
    assert Candidates([v]) == VisitCandidates(v);
    var cs := Candidates(Walk(basePath, base));
    assert cs == VisitCandidates(v) + Candidates(rest);
    assert cs[i] == Candidate(basePath, base.subdirs[i].name);
  }
}

/** `check_integrity_set`: checks every watched path, and for a watched
    directory also its direct children and the files of its child
    directories, collecting the paths that drifted. */
module IntegritySet {
  import opened Base
  import opened Paths
  import opened FileSystem
  import opened Digest
  import opened Store
  import opened Integrity
  import Ordering

  /** Inside a child directory: a file is checked unless it is itself watched. */
  function GrandTarget(fs: FS, pathSet: seq<Path>): Path -> seq<Path> {
    j => if j !in pathSet && IsFile(fs, j) then [j] else []
  }

  /** A child of a watched directory: a directory is checked together with its
      files; anything else is checked unless it is itself watched. */
  function ChildTarget(fs: FS, pathSet: seq<Path>): Path -> seq<Path> {
    i => if IsDir(fs, i) then [i] + ConcatMap(GrandTarget(fs, pathSet), Children(fs, i))
         else if i in pathSet then [] else [i]
  }

  /** A watched path: its absolute form, then (unless skipping) its children. */
  function ItemTarget(fs: FS, cwd: Path, pathSet: seq<Path>, skip: bool): Path -> seq<Path> {
    p => var a := Abspath(cwd, p);
         [a] + (if !skip && IsDir(fs, a) then ConcatMap(ChildTarget(fs, pathSet), Children(fs, a)) else [])
  }

  /** Every path `check_integrity` is called on, in call order. */
  function Targets(fs: FS, cwd: Path, pathSet: seq<Path>, skip: bool): seq<Path> {
    ConcatMap(ItemTarget(fs, cwd, pathSet, skip), pathSet)
  }

  datatype Run = Run(failed: seq<Path>, db: Db, error: Option<IntegrityError>)

  /** One `check_integrity` call in the loop: a drifted path is appended to
      `failed`; an error ends the run. */
  function Step(run: Run, fs: FS, cwd: Path, t: Path, alg: HashAlg,
                parseType: Path -> seq<(string, string)>, skip: bool): (run': Run)
    ensures run.error.Some? ==> run' == run
  {
    if run.error.Some? then run
    else match Check(run.db, fs, cwd, t, alg, parseType, skip)
      case Err(e) => Run(run.failed, run.db, Some(e))
      case Ok(c) => Run(run.failed + (if c.broken then [t] else []), c.db, None)
  }

  function RunFrom(run: Run, fs: FS, cwd: Path, ts: seq<Path>, alg: HashAlg,
                   parseType: Path -> seq<(string, string)>, skip: bool): Run
    decreases |ts|
  {
    if ts == [] then run
    else Step(RunFrom(run, fs, cwd, ts[..|ts| - 1], alg, parseType, skip), fs, cwd, ts[|ts| - 1], alg, parseType, skip)
  }

  lemma {:induction false} RunFromAppend(run: Run, fs: FS, cwd: Path, a: seq<Path>, b: seq<Path>, alg: HashAlg,
                                         parseType: Path -> seq<(string, string)>, skip: bool)
    ensures RunFrom(run, fs, cwd, a + b, alg, parseType, skip)
         == RunFrom(RunFrom(run, fs, cwd, a, alg, parseType, skip), fs, cwd, b, alg, parseType, skip)
    decreases |b|
  {
    if b == [] {
      assert a + b == a;
    } else {
      var n := |b| - 1;
      var mid := RunFrom(run, fs, cwd, a, alg, parseType, skip);
      assert (a + b)[..|a + b| - 1] == a + b[..n];
      assert (a + b)[|a + b| - 1] == b[n];
      RunFromAppend(run, fs, cwd, a, b[..n], alg, parseType, skip);
      assert RunFrom(run, fs, cwd, a + b[..n], alg, parseType, skip) == RunFrom(mid, fs, cwd, b[..n], alg, parseType, skip);
    }
  }

  lemma {:induction false} RunFromSticky(run: Run, fs: FS, cwd: Path, ts: seq<Path>, alg: HashAlg,
                                         parseType: Path -> seq<(string, string)>, skip: bool)
    requires run.error.Some?
    ensures RunFrom(run, fs, cwd, ts, alg, parseType, skip) == run
    decreases |ts|
  {
    if ts != [] {
      RunFromSticky(run, fs, cwd, ts[..|ts| - 1], alg, parseType, skip);
    }
  }

  /** Only checked paths are reported, and the store only grows. */
  lemma {:induction false} RunFromFailed(run: Run, fs: FS, cwd: Path, ts: seq<Path>, alg: HashAlg,
                                         parseType: Path -> seq<(string, string)>, skip: bool)
    ensures var run' := RunFrom(run, fs, cwd, ts, alg, parseType, skip);
            (forall p :: p in run'.failed ==> p in run.failed || p in ts) && Extends(run.db, run'.db)
    decreases |ts|
  {
    if ts != [] {
      var n := |ts| - 1;
      RunFromFailed(run, fs, cwd, ts[..n], alg, parseType, skip);
      assert forall p :: p in ts[..n] ==> p in ts;
    }
  }

  /** The absolute forms of `ps`, in order. */
  function Absolutes(cwd: Path, ps: seq<Path>): (r: seq<Path>)
    ensures |r| == |ps| && forall k :: 0 <= k < |ps| ==> r[k] == Abspath(cwd, ps[k])
    decreases |ps|
  {
    if ps == [] then [] else Absolutes(cwd, ps[..|ps| - 1]) + [Abspath(cwd, ps[|ps| - 1])]
  }

  /** With `skip_check` only the watched paths themselves are checked. */
  lemma {:induction false} TargetsSkip(fs: FS, cwd: Path, pathSet: seq<Path>, ps: seq<Path>)
    ensures ConcatMap(ItemTarget(fs, cwd, pathSet, true), ps) == Absolutes(cwd, ps)
    decreases |ps|
  {
    if ps != [] {
      var n := |ps| - 1;
      TargetsSkip(fs, cwd, pathSet, ps[..n]);
      assert ItemTarget(fs, cwd, pathSet, true)(ps[n]) == [Abspath(cwd, ps[n])];
    }
  }

  /** Inside a child directory, exactly its unwatched files are checked. */
  lemma GrandTargetsShape(fs: FS, pathSet: seq<Path>, i: Path, t: Path)
    requires IsDir(fs, i)
    ensures t in ConcatMap(GrandTarget(fs, pathSet), Children(fs, i)) <==>
            t in Children(fs, i) && t !in pathSet && IsFile(fs, t)
  {
    var js := Children(fs, i);
    ConcatMapMember(GrandTarget(fs, pathSet), js, t);
    if t in js && t !in pathSet && IsFile(fs, t) {
      var k :| 0 <= k < |js| && js[k] == t;
      assert t in GrandTarget(fs, pathSet)(js[k]);
    }
  }

  /** Checking child `i` of a watched directory checks `t`: `i` itself when
      it is a directory or not watched, or an unwatched file inside `i`. */
  predicate Covers(fs: FS, pathSet: seq<Path>, i: Path, t: Path) {
    || (t == i && (IsDir(fs, i) || i !in pathSet))
    || (IsDir(fs, i) && t in Children(fs, i) && t !in pathSet && IsFile(fs, t))
  }

  lemma ChildTargetMember(fs: FS, pathSet: seq<Path>, i: Path, t: Path)
    ensures t in ChildTarget(fs, pathSet)(i) <==> Covers(fs, pathSet, i, t)
  {
    if IsDir(fs, i) {
      GrandTargetsShape(fs, pathSet, i, t);
    }
  }

  /** What a watched directory adds: its child directories, its other
      children that are not watched, and the unwatched files of its child
      directories, and nothing else. */
  lemma ChildTargetsShape(fs: FS, pathSet: seq<Path>, d: Path, t: Path)
    requires IsDir(fs, d)
    ensures t in ConcatMap(ChildTarget(fs, pathSet), Children(fs, d)) <==>
            exists i :: i in Children(fs, d) && Covers(fs, pathSet, i, t)
  {
    var cs := Children(fs, d);
    var f := ChildTarget(fs, pathSet);
    ConcatMapMember(f, cs, t);
    if t in ConcatMap(f, cs) {
      var k :| 0 <= k < |cs| && t in f(cs[k]);
      ChildTargetMember(fs, pathSet, cs[k], t);
    }
    if exists i :: i in cs && Covers(fs, pathSet, i, t) {
      var i :| i in cs && Covers(fs, pathSet, i, t);
      var k :| 0 <= k < |cs| && cs[k] == i;
      ChildTargetMember(fs, pathSet, cs[k], t);
    }
  }

  /** `check_integrity` on one path, appending it to `failed` when it drifted. */
  method Visit(store: ProvenanceStore, fs: FS, cwd: Path, t: Path, alg: HashAlg,
               parseType: Path -> seq<(string, string)>, skip: bool, failed: seq<Path>)
      returns (failed': seq<Path>, err: Option<IntegrityError>)
    modifies store
    ensures Run(failed', store.Value(), err) == Step(Run(failed, old(store.Value()), None), fs, cwd, t, alg, parseType, skip)
  {
    var r := CheckIntegrity(store, fs, cwd, t, alg, parseType, skip);
    if r.Err? {
      return failed, Some(r.error);
    }
    failed' := if r.value then failed + [t] else failed;
    err := None;
  }

  /** `for subsubitem in os.listdir(i_abspath): ...` */
  method VisitGrandChildren(store: ProvenanceStore, fs: FS, cwd: Path, pathSet: seq<Path>, i: Path, alg: HashAlg,
                            parseType: Path -> seq<(string, string)>, failed: seq<Path>)
      returns (failed': seq<Path>, err: Option<IntegrityError>)
    requires IsDir(fs, i)
    modifies store
    ensures Run(failed', store.Value(), err)
         == RunFrom(Run(failed, old(store.Value()), None), fs, cwd, ConcatMap(GrandTarget(fs, pathSet), Children(fs, i)), alg, parseType, false)
  {
    ghost var init := Run(failed, store.Value(), None);
    var js := Children(fs, i);
    var f := GrandTarget(fs, pathSet);
    failed' := failed;
    var c := 0;
    while c < |js|
      invariant c <= |js|
      invariant Run(failed', store.Value(), None) == RunFrom(init, fs, cwd, ConcatMap(f, js[..c]), alg, parseType, false)
    {
      RunFromSnoc(init, fs, cwd, f, js, c, alg, parseType, false);
      var j := js[c];
      if j !in pathSet && IsFile(fs, j) {
        failed', err := Visit(store, fs, cwd, j, alg, parseType, false, failed');
        if err.Some? {
          Finish(init, fs, cwd, f, js, c + 1, alg, parseType, false);
          return;
        }
      }
      c := c + 1;
    }
    assert js[..c] == js;
    err := None;
  }

  /** The body of `for subitem in os.listdir(item)`: a child directory is
      checked, then its files; any other child unless it is watched. */
  method VisitChild(store: ProvenanceStore, fs: FS, cwd: Path, pathSet: seq<Path>, i: Path, alg: HashAlg,
                    parseType: Path -> seq<(string, string)>, failed: seq<Path>)
      returns (failed': seq<Path>, err: Option<IntegrityError>)
    modifies store
    ensures Run(failed', store.Value(), err)
         == RunFrom(Run(failed, old(store.Value()), None), fs, cwd, ChildTarget(fs, pathSet)(i), alg, parseType, false)
  {
    ghost var mid := Run(failed, store.Value(), None);
    if IsDir(fs, i) {
      ghost var grand := ConcatMap(GrandTarget(fs, pathSet), Children(fs, i));
      assert ChildTarget(fs, pathSet)(i) == [i] + grand;
      RunFromAppend(mid, fs, cwd, [i], grand, alg, parseType, false);
      failed', err := Visit(store, fs, cwd, i, alg, parseType, false, failed);
      if err.Some? {
        RunFromSticky(Run(failed', store.Value(), err), fs, cwd, grand, alg, parseType, false);
        return;
      }
      failed', err := VisitGrandChildren(store, fs, cwd, pathSet, i, alg, parseType, failed');
    } else if i !in pathSet {
      assert ChildTarget(fs, pathSet)(i) == [i];
      failed', err := Visit(store, fs, cwd, i, alg, parseType, false, failed);
    } else {
      assert ChildTarget(fs, pathSet)(i) == [];
      failed', err := failed, None;
    }
  }

  /** `for subitem in os.listdir(item): ...` */
  method VisitChildren(store: ProvenanceStore, fs: FS, cwd: Path, pathSet: seq<Path>, d: Path, alg: HashAlg,
                       parseType: Path -> seq<(string, string)>, failed: seq<Path>)
      returns (failed': seq<Path>, err: Option<IntegrityError>)
    requires IsDir(fs, d)
    modifies store
    ensures Run(failed', store.Value(), err)
         == RunFrom(Run(failed, old(store.Value()), None), fs, cwd, ConcatMap(ChildTarget(fs, pathSet), Children(fs, d)), alg, parseType, false)
  {
    ghost var init := Run(failed, store.Value(), None);
    var cs := Children(fs, d);
    ghost var f := ChildTarget(fs, pathSet);
    failed' := failed;
    var c := 0;
    while c < |cs|
      invariant c <= |cs|
      invariant Run(failed', store.Value(), None) == RunFrom(init, fs, cwd, ConcatMap(f, cs[..c]), alg, parseType, false)
    {
      RunFromSnoc(init, fs, cwd, f, cs, c, alg, parseType, false);
      failed', err := VisitChild(store, fs, cwd, pathSet, cs[c], alg, parseType, failed');
      if err.Some? {
        Finish(init, fs, cwd, f, cs, c + 1, alg, parseType, false);
        return;
      }
      c := c + 1;
    }
    assert cs[..c] == cs;
    err := None;
  }

  /** A loop over `xs` that checks the targets `f` gives each element, one
      element further. */
  lemma RunFromSnoc(init: Run, fs: FS, cwd: Path, f: Path -> seq<Path>, xs: seq<Path>, k: nat, alg: HashAlg,
                    parseType: Path -> seq<(string, string)>, skip: bool)
    requires k < |xs|
    ensures RunFrom(init, fs, cwd, ConcatMap(f, xs[..k + 1]), alg, parseType, skip)
         == RunFrom(RunFrom(init, fs, cwd, ConcatMap(f, xs[..k]), alg, parseType, skip), fs, cwd, f(xs[k]), alg, parseType, skip)
  {
    ConcatMapSnoc(f, xs, k);
    RunFromAppend(init, fs, cwd, ConcatMap(f, xs[..k]), f(xs[k]), alg, parseType, skip);
  }

  /** An error part-way through a loop is the outcome of the whole loop. */
  lemma Finish(init: Run, fs: FS, cwd: Path, f: Path -> seq<Path>, xs: seq<Path>, k: nat, alg: HashAlg,
               parseType: Path -> seq<(string, string)>, skip: bool)
    requires k <= |xs|
    requires RunFrom(init, fs, cwd, ConcatMap(f, xs[..k]), alg, parseType, skip).error.Some?
    ensures RunFrom(init, fs, cwd, ConcatMap(f, xs), alg, parseType, skip)
         == RunFrom(init, fs, cwd, ConcatMap(f, xs[..k]), alg, parseType, skip)
  {
    ConcatMapSplit(f, xs, k);
    RunFromAppend(init, fs, cwd, ConcatMap(f, xs[..k]), ConcatMap(f, xs[k..]), alg, parseType, skip);
    RunFromSticky(RunFrom(init, fs, cwd, ConcatMap(f, xs[..k]), alg, parseType, skip), fs, cwd, ConcatMap(f, xs[k..]), alg, parseType, skip);
  }

  /** One watched path: `check_integrity(item)`, then its children unless skipping. */
  method VisitItem(store: ProvenanceStore, fs: FS, cwd: Path, pathSet: seq<Path>, p: Path, alg: HashAlg,
                   parseType: Path -> seq<(string, string)>, skip: bool, failed: seq<Path>)
      returns (failed': seq<Path>, err: Option<IntegrityError>)
    modifies store
    ensures Run(failed', store.Value(), err)
         == RunFrom(Run(failed, old(store.Value()), None), fs, cwd, ItemTarget(fs, cwd, pathSet, skip)(p), alg, parseType, skip)
  {
    ghost var mid := Run(failed, store.Value(), None);
    var item := Abspath(cwd, p);
    ghost var rest := if !skip && IsDir(fs, item) then ConcatMap(ChildTarget(fs, pathSet), Children(fs, item)) else [];
    assert ItemTarget(fs, cwd, pathSet, skip)(p) == [item] + rest;
    RunFromAppend(mid, fs, cwd, [item], rest, alg, parseType, skip);
    failed', err := Visit(store, fs, cwd, item, alg, parseType, skip, failed);
    if err.Some? {
      RunFromSticky(Run(failed', store.Value(), err), fs, cwd, rest, alg, parseType, skip);
      return;
    }
    if !skip && IsDir(fs, item) {
      failed', err := VisitChildren(store, fs, cwd, pathSet, item, alg, parseType, failed');
    }
  }

  /** `for item in path_set: ...` */
  method CollectFailed(store: ProvenanceStore, fs: FS, cwd: Path, pathSet: seq<Path>, alg: HashAlg,
                       parseType: Path -> seq<(string, string)>, skip: bool)
      returns (failed: seq<Path>, err: Option<IntegrityError>)
    modifies store
    ensures Run(failed, store.Value(), err)
         == RunFrom(Run([], old(store.Value()), None), fs, cwd, Targets(fs, cwd, pathSet, skip), alg, parseType, skip)
  {
    ghost var init := Run([], store.Value(), None);
    ghost var f := ItemTarget(fs, cwd, pathSet, skip);
    failed := [];
    var k := 0;
    while k < |pathSet|
      invariant k <= |pathSet|
      invariant Run(failed, store.Value(), None) == RunFrom(init, fs, cwd, ConcatMap(f, pathSet[..k]), alg, parseType, skip)
    {
      ghost var before := Run(failed, store.Value(), None);
      RunFromSnoc(init, fs, cwd, f, pathSet, k, alg, parseType, skip);
      failed, err := VisitItem(store, fs, cwd, pathSet, pathSet[k], alg, parseType, skip, failed);
      ghost var after := RunFrom(init, fs, cwd, ConcatMap(f, pathSet[..k + 1]), alg, parseType, skip);
      assert after == RunFrom(before, fs, cwd, f(pathSet[k]), alg, parseType, skip);
      assert Run(failed, store.Value(), err) == after;
      if err.Some? {
        Finish(init, fs, cwd, f, pathSet, k + 1, alg, parseType, skip);
        return;
      }
      k := k + 1;
    }
    TargetsAll(fs, cwd, pathSet, skip);
    err := None;
  }

  lemma TargetsAll(fs: FS, cwd: Path, pathSet: seq<Path>, skip: bool)
    ensures ConcatMap(ItemTarget(fs, cwd, pathSet, skip), pathSet[..|pathSet|]) == Targets(fs, cwd, pathSet, skip)
  {
    assert pathSet[..|pathSet|] == pathSet;
  }

  /** `check_integrity_set(path_set, skip_check=skip)`: the sorted drifted
      paths, or the error of the check that failed; the corrective records of
      the checks before a failure stay in the store. */
  method CheckIntegritySet(store: ProvenanceStore, fs: FS, cwd: Path, pathSet: seq<Path>, alg: HashAlg,
                           parseType: Path -> seq<(string, string)>, skip: bool)
      returns (r: Result<seq<Path>, IntegrityError>)
    modifies store
    ensures var run := RunFrom(Run([], old(store.Value()), None), fs, cwd, Targets(fs, cwd, pathSet, skip), alg, parseType, skip);
            && store.Value() == run.db
            && (run.error.Some? ==> r == Err(run.error.value))
            && (run.error.None? ==> r == Ok(Ordering.Sort(run.failed)))
  {
    var failed, err := CollectFailed(store, fs, cwd, pathSet, alg, parseType, skip);
    if err.Some? {
      return Err(err.value);
    }
    return Ok(Ordering.Sort(failed));
  }
}

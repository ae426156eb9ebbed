/** `check_status_path_set`: `get_status` of every watched path and of the
    direct children of every watched directory, filed under `dirs` or
    `files`, and the per-code tallies of both. It reads the store and
    changes nothing. */
module StatusSet {
  import opened Base
  import opened Paths
  import opened FileSystem
  import opened Digest
  import opened Store
  import opened Integrity

  /** One `statii[p] = stat[0]; hashes[p] = (stat[1], stat[2])` assignment. */
  datatype Put = PutDir(path: Path) | PutFile(path: Path)

  datatype Statii = Statii(dirs: map<Path, Code>, files: map<Path, Code>, hashes: map<Path, (Hash, Hash)>)

  /** The counters `{"C": 0, "M": 0, "D": 0, "U": 0}`. */
  datatype Tally = Tally(created: nat, modified: nat, deleted: nat, unaltered: nat)

  datatype Report = Report(dirs: map<Path, Code>, files: map<Path, Code>,
                           dCodes: Tally, fCodes: Tally, codes: Tally,
                           hashes: map<Path, (Hash, Hash)>)

  /** `dir_codes[s] += 1` with `s == '?'`: the counters have no such key. */
  datatype StatusError = KeyError(code: Code)

  function Get(t: Tally, c: Code): nat {
    match c
    case Created => t.created
    case Modified => t.modified
    case Deleted => t.deleted
    case Unchanged => t.unaltered
    case Unknown => 0
  }

  function Bump(t: Tally, c: Code): (t': Tally)
    requires c != Unknown
    ensures Get(t', c) == Get(t, c) + 1
    ensures forall c' :: c' != c ==> Get(t', c') == Get(t, c')
  {
    match c
    case Created => t.(created := t.created + 1)
    case Modified => t.(modified := t.modified + 1)
    case Deleted => t.(deleted := t.deleted + 1)
    case Unchanged => t.(unaltered := t.unaltered + 1)
  }

  function Total(t: Tally): nat {
    t.created + t.modified + t.deleted + t.unaltered
  }

  /** A non-directory child of a watched directory is filed as a file. */
  function ChildPut(fs: FS): Path -> seq<Put> {
    i => if IsDir(fs, i) then [PutDir(i)] else [PutFile(i)]
  }

  /** The assignments one watched path makes, in program order: a missing
      path under `files`; a directory under `dirs`, followed by its children;
      a file under `files`. */
  function ItemPuts(fs: FS, cwd: Path, p: Path): seq<Put> {
    var a := Abspath(cwd, p);
    (if !Exists(fs, a) then [PutFile(a)] else [])
    + (if IsDir(fs, a) then [PutDir(a)] + ConcatMap(ChildPut(fs), Children(fs, a))
       else if IsFile(fs, a) then [PutFile(a)] else [])
  }

  function ItemPut(fs: FS, cwd: Path): Path -> seq<Put> {
    p => ItemPuts(fs, cwd, p)
  }

  function Puts(fs: FS, cwd: Path, pathSet: seq<Path>): seq<Put> {
    ConcatMap(ItemPut(fs, cwd), pathSet)
  }

  /** `get_status` over the store and the file system, as a value. */
  function StatusFn(fs: FS, db: Db, cwd: Path, alg: HashAlg): Path -> Status {
    p => GetStatus(fs, db, cwd, p, alg)
  }

  function ApplyPut(st: Statii, stat: Path -> Status, put: Put): Statii {
    var s := stat(put.path);
    match put
    case PutDir(p) => st.(dirs := st.dirs[p := s.code], hashes := st.hashes[p := (s.h, s.lastH)])
    case PutFile(p) => st.(files := st.files[p := s.code], hashes := st.hashes[p := (s.h, s.lastH)])
  }

  function Apply(st: Statii, stat: Path -> Status, puts: seq<Put>): Statii
    decreases |puts|
  {
    if puts == [] then st
    else ApplyPut(Apply(st, stat, puts[..|puts| - 1]), stat, puts[|puts| - 1])
  }

  const NoStatii := Statii(map[], map[], map[])

  /** The two status tables and the hashes after the collection loop. */
  function Collected(fs: FS, db: Db, cwd: Path, pathSet: seq<Path>, alg: HashAlg): Statii {
    Apply(NoStatii, StatusFn(fs, db, cwd, alg), Puts(fs, cwd, pathSet))
  }

  lemma {:induction false} ApplyAppend(st: Statii, stat: Path -> Status, a: seq<Put>, b: seq<Put>)
    ensures Apply(st, stat, a + b) == Apply(Apply(st, stat, a), stat, b)
    decreases |b|
  {
    if b == [] {
      assert a + b == a;
    } else {
      var n := |b| - 1;
      assert (a + b)[..|a + b| - 1] == a + b[..n];
      assert (a + b)[|a + b| - 1] == b[n];
      ApplyAppend(st, stat, a, b[..n]);
    }
  }

  /** Every entry holds that path's own `get_status`, under `dirs` exactly
      when a directory assignment was made for it and under `files` exactly
      when a file assignment was. */
  lemma {:induction false} ApplyShape(st: Statii, stat: Path -> Status, puts: seq<Put>, p: Path)
    ensures var st' := Apply(st, stat, puts);
            && (p in st'.dirs <==> p in st.dirs || PutDir(p) in puts)
            && (p in st'.files <==> p in st.files || PutFile(p) in puts)
            && (PutDir(p) in puts ==> st'.dirs[p] == stat(p).code)
            && (PutFile(p) in puts ==> st'.files[p] == stat(p).code)
    decreases |puts|
  {
    if puts != [] {
      var n := |puts| - 1;
      ApplyShape(st, stat, puts[..n], p);
      assert puts == puts[..n] + [puts[n]];
      assert forall q :: q in puts <==> q in puts[..n] || q == puts[n];
    }
  }

  lemma ChildPutDirs(fs: FS, cs: seq<Path>, q: Path)
    requires PutDir(q) in ConcatMap(ChildPut(fs), cs)
    ensures IsDir(fs, q)
  {
    ConcatMapMember(ChildPut(fs), cs, PutDir(q));
  }

  lemma ItemPutDirs(fs: FS, cwd: Path, p: Path, q: Path)
    requires PutDir(q) in ItemPut(fs, cwd)(p)
    ensures IsDir(fs, q)
  {
    assert ItemPut(fs, cwd)(p) == ItemPuts(fs, cwd, p);
    var a := Abspath(cwd, p);
    var missing: seq<Put> := if !Exists(fs, a) then [PutFile(a)] else [];
    if IsDir(fs, a) {
      var kids := ConcatMap(ChildPut(fs), Children(fs, a));
      assert ItemPuts(fs, cwd, p) == missing + [PutDir(a)] + kids;
      if q != a {
        ChildPutDirs(fs, Children(fs, a), q);
      }
    }
  }

  /** Only directories are filed under `dirs`. */
  lemma OnlyDirsUnderDirs(fs: FS, cwd: Path, pathSet: seq<Path>, p: Path)
    requires PutDir(p) in Puts(fs, cwd, pathSet)
    ensures IsDir(fs, p)
  {
    ConcatMapMember(ItemPut(fs, cwd), pathSet, PutDir(p));
    var k :| 0 <= k < |pathSet| && PutDir(p) in ItemPut(fs, cwd)(pathSet[k]);
    ItemPutDirs(fs, cwd, pathSet[k], p);
  }

  /** A path that is not on disk is tallied under `files`, never under
      `dirs`, with the status `get_status` gives it. */
  lemma MissingUnderFiles(fs: FS, db: Db, cwd: Path, pathSet: seq<Path>, alg: HashAlg, k: nat)
    requires k < |pathSet|
    requires !Exists(fs, Abspath(cwd, pathSet[k]))
    ensures var st := Collected(fs, db, cwd, pathSet, alg);
            var a := Abspath(cwd, pathSet[k]);
            a in st.files && a !in st.dirs && st.files[a] == GetStatus(fs, db, cwd, a, alg).code
  {
    var a := Abspath(cwd, pathSet[k]);
    var puts := Puts(fs, cwd, pathSet);
    assert PutFile(a) in ItemPut(fs, cwd)(pathSet[k]);
    ConcatMapMember(ItemPut(fs, cwd), pathSet, PutFile(a));
    ApplyShape(NoStatii, StatusFn(fs, db, cwd, alg), puts, a);
    if PutDir(a) in puts {
      OnlyDirsUnderDirs(fs, cwd, pathSet, a);
    }
  }

  /** How many of the keys in `ks` have status `c`. */
  function Count(m: map<Path, Code>, ks: set<Path>, c: Code): nat {
    |set p | p in ks && p in m && m[p] == c|
  }

  lemma CountAdd(m: map<Path, Code>, ks: set<Path>, p: Path, c: Code)
    requires p in m && p !in ks
    ensures Count(m, ks + {p}, c) == Count(m, ks, c) + (if m[p] == c then 1 else 0)
  {
    var before := set q | q in ks && q in m && m[q] == c;
    var after := set q | q in ks + {p} && q in m && m[q] == c;
    if m[p] == c {
      assert after == before + {p};
    } else {
      assert after == before;
    }
  }

  /** The tally of a whole table. */
  function Tallied(m: map<Path, Code>): Tally {
    Tally(Count(m, m.Keys, Created), Count(m, m.Keys, Modified), Count(m, m.Keys, Deleted), Count(m, m.Keys, Unchanged))
  }

  /** Without a `?` status, every entry is counted exactly once. */
  lemma {:induction false} CountSum(m: map<Path, Code>, ks: set<Path>)
    requires ks <= m.Keys
    requires forall p :: p in ks ==> m[p] != Unknown
    ensures Count(m, ks, Created) + Count(m, ks, Modified) + Count(m, ks, Deleted) + Count(m, ks, Unchanged) == |ks|
    decreases |ks|
  {
    if ks != {} {
      var p :| p in ks;
      var rest := ks - {p};
      CountSum(m, rest);
      assert rest + {p} == ks;
      CountAdd(m, rest, p, Created);
      CountAdd(m, rest, p, Modified);
      CountAdd(m, rest, p, Deleted);
      CountAdd(m, rest, p, Unchanged);
    }
  }

  lemma TalliedTotal(m: map<Path, Code>)
    requires forall p :: p in m ==> m[p] != Unknown
    ensures Total(Tallied(m)) == |m|
  {
    CountSum(m, m.Keys);
  }

  /** `for s in statii.values(): own[s] += 1; codes[s] += 1` */
  method TallyInto(m: map<Path, Code>, codes: Tally) returns (r: Result<(Tally, Tally), StatusError>)
    ensures r.Ok? <==> forall p :: p in m ==> m[p] != Unknown
    ensures r.Ok? ==> r.value.0 == Tallied(m)
    ensures r.Ok? ==> forall c :: Get(r.value.1, c) == Get(codes, c) + Get(r.value.0, c)
  {
    var own := Tally(0, 0, 0, 0);
    var total := codes;
    var todo := m.Keys;
    while todo != {}
      invariant todo <= m.Keys
      invariant forall p :: p in m.Keys - todo ==> m[p] != Unknown
      invariant forall c :: c != Unknown ==> Get(own, c) == Count(m, m.Keys - todo, c)
      invariant forall c :: Get(total, c) == Get(codes, c) + Get(own, c)
      decreases |todo|
    {
      var p :| p in todo;
      var s := m[p];
      if s == Unknown {
        return Err(KeyError(s));
      }
      forall c | c != Unknown ensures Count(m, (m.Keys - todo) + {p}, c) == Count(m, m.Keys - todo, c) + (if s == c then 1 else 0) {
        CountAdd(m, m.Keys - todo, p, c);
      }
      assert (m.Keys - todo) + {p} == m.Keys - (todo - {p});
      own := Bump(own, s);
      total := Bump(total, s);
      todo := todo - {p};
    }
    assert m.Keys - todo == m.Keys;
    return Ok((own, total));
  }

  /** `get_status(p)` filed as `put` says. */
  method Assign(fs: FS, db: Db, cwd: Path, alg: HashAlg, st: Statii, put: Put) returns (st': Statii)
    ensures st' == ApplyPut(st, StatusFn(fs, db, cwd, alg), put)
  {
    var s := GetStatus(fs, db, cwd, put.path, alg);
    if put.PutDir? {
      st' := st.(dirs := st.dirs[put.path := s.code], hashes := st.hashes[put.path := (s.h, s.lastH)]);
    } else {
      st' := st.(files := st.files[put.path := s.code], hashes := st.hashes[put.path := (s.h, s.lastH)]);
    }
  }

  /** `for subitem in os.listdir(item): ...` */
  method CollectChildren(fs: FS, db: Db, cwd: Path, alg: HashAlg, d: Path, st: Statii) returns (st': Statii)
    requires IsDir(fs, d)
    ensures st' == Apply(st, StatusFn(fs, db, cwd, alg), ConcatMap(ChildPut(fs), Children(fs, d)))
  {
    var cs := Children(fs, d);
    var f := ChildPut(fs);
    st' := st;
    var c := 0;
    while c < |cs|
      invariant c <= |cs|
      invariant st' == Apply(st, StatusFn(fs, db, cwd, alg), ConcatMap(f, cs[..c]))
    {
      ConcatMapSnoc(f, cs, c);
      ApplyAppend(st, StatusFn(fs, db, cwd, alg), ConcatMap(f, cs[..c]), f(cs[c]));
      var i := cs[c];
      if IsDir(fs, i) {
        st' := Assign(fs, db, cwd, alg, st', PutDir(i));
      } else {
        st' := Assign(fs, db, cwd, alg, st', PutFile(i));
      }
      c := c + 1;
    }
    assert cs[..c] == cs;
  }

  /** The body of `for item in path_set`. */
  method CollectItem(fs: FS, db: Db, cwd: Path, alg: HashAlg, p: Path, st: Statii) returns (st': Statii)
    ensures st' == Apply(st, StatusFn(fs, db, cwd, alg), ItemPut(fs, cwd)(p))
  {
    var item := Abspath(cwd, p);
    ghost var missing: seq<Put> := if !Exists(fs, item) then [PutFile(item)] else [];
    ghost var rest: seq<Put> := if IsDir(fs, item) then [PutDir(item)] + ConcatMap(ChildPut(fs), Children(fs, item))
                                else if IsFile(fs, item) then [PutFile(item)] else [];
    assert ItemPut(fs, cwd)(p) == ItemPuts(fs, cwd, p) == missing + rest;
    ApplyAppend(st, StatusFn(fs, db, cwd, alg), missing, rest);
    st' := st;
    if item !in fs {
      st' := Assign(fs, db, cwd, alg, st', PutFile(item));
    }
    if IsDir(fs, item) {
      ghost var mid := st';
      ApplyAppend(mid, StatusFn(fs, db, cwd, alg), [PutDir(item)], ConcatMap(ChildPut(fs), Children(fs, item)));
      st' := Assign(fs, db, cwd, alg, st', PutDir(item));
      st' := CollectChildren(fs, db, cwd, alg, item, st');
    } else if IsFile(fs, item) {
      st' := Assign(fs, db, cwd, alg, st', PutFile(item));
    }
  }

  /** The collection loop over `path_set`. */
  method Collect(fs: FS, db: Db, cwd: Path, pathSet: seq<Path>, alg: HashAlg) returns (st: Statii)
    ensures st == Collected(fs, db, cwd, pathSet, alg)
  {
    var f := ItemPut(fs, cwd);
    st := NoStatii;
    var k := 0;
    while k < |pathSet|
      invariant k <= |pathSet|
      invariant st == Apply(NoStatii, StatusFn(fs, db, cwd, alg), ConcatMap(f, pathSet[..k]))
    {
      ConcatMapSnoc(f, pathSet, k);
      ApplyAppend(NoStatii, StatusFn(fs, db, cwd, alg), ConcatMap(f, pathSet[..k]), f(pathSet[k]));
      st := CollectItem(fs, db, cwd, alg, pathSet[k], st);
      k := k + 1;
    }
    assert pathSet[..k] == pathSet;
  }

  /** The tallying half of `check_status_path_set`, over the collected tables. */
  method TallyStatii(st: Statii) returns (r: Result<Report, StatusError>)
    ensures r.Ok? <==> (forall p :: p in st.dirs ==> st.dirs[p] != Unknown) &&
                       (forall p :: p in st.files ==> st.files[p] != Unknown)
    ensures r.Ok? ==> && r.value.dirs == st.dirs && r.value.files == st.files && r.value.hashes == st.hashes
                      && r.value.dCodes == Tallied(st.dirs) && r.value.fCodes == Tallied(st.files)
    ensures r.Ok? ==> forall c :: Get(r.value.codes, c) == Get(r.value.dCodes, c) + Get(r.value.fCodes, c)
    ensures r.Ok? ==> Total(r.value.codes) == |r.value.dirs| + |r.value.files|
  {
    var d := TallyInto(st.dirs, Zero);
    if d.Err? {
      return Err(d.error);
    }
    var f := TallyInto(st.files, d.value.1);
    if f.Err? {
      return Err(f.error);
    }
    TalliedTotal(st.dirs);
    TalliedTotal(st.files);
    SumOfTallies(d.value.0, f.value.0, d.value.1, f.value.1);
    return Ok(Report(st.dirs, st.files, d.value.0, f.value.0, f.value.1, st.hashes));
  }

  /** `check_status_path_set(path_set)` */
  method CheckStatusPathSet(fs: FS, db: Db, cwd: Path, pathSet: seq<Path>, alg: HashAlg)
      returns (r: Result<Report, StatusError>)
    ensures var st := Collected(fs, db, cwd, pathSet, alg);
            r.Ok? <==> (forall p :: p in st.dirs ==> st.dirs[p] != Unknown) &&
                       (forall p :: p in st.files ==> st.files[p] != Unknown)
    ensures var st := Collected(fs, db, cwd, pathSet, alg);
            r.Ok? ==> && r.value.dirs == st.dirs && r.value.files == st.files && r.value.hashes == st.hashes
                      && r.value.dCodes == Tallied(st.dirs) && r.value.fCodes == Tallied(st.files)
    // every code is counted once per table it appears in
    ensures r.Ok? ==> forall c :: Get(r.value.codes, c) == Get(r.value.dCodes, c) + Get(r.value.fCodes, c)
    ensures r.Ok? ==> Total(r.value.codes) == |r.value.dirs| + |r.value.files|
  {
    var st := Collect(fs, db, cwd, pathSet, alg);
    r := TallyStatii(st);
  }

  const Zero := Tally(0, 0, 0, 0)

  /** Counting into `codes` after counting into `dir_codes`. */
  lemma SumOfTallies(d: Tally, f: Tally, afterD: Tally, codes: Tally)
    requires forall c :: Get(afterD, c) == Get(Zero, c) + Get(d, c)
    requires forall c :: Get(codes, c) == Get(afterD, c) + Get(f, c)
    ensures forall c :: Get(codes, c) == Get(d, c) + Get(f, c)
    ensures Total(codes) == Total(d) + Total(f)
  {
    forall c ensures Get(codes, c) == Get(d, c) + Get(f, c) {
      assert Get(Zero, c) == 0;
    }
    assert Get(codes, Created) == Get(d, Created) + Get(f, Created);
    assert Get(codes, Modified) == Get(d, Modified) + Get(f, Modified);
    assert Get(codes, Deleted) == Get(d, Deleted) + Get(f, Deleted);
    assert Get(codes, Unchanged) == Get(d, Unchanged) + Get(f, Unchanged);
  }

  /** A watched path that is neither on disk nor recorded gets `?`, and the
      tally then fails. */
  lemma UnknownFails(fs: FS, db: Db, cwd: Path, pathSet: seq<Path>, alg: HashAlg, k: nat)
    requires IsAbs(cwd) && k < |pathSet|
    requires !Exists(fs, Abspath(cwd, pathSet[k]))
    requires RecordedDigest(db, cwd, Abspath(cwd, pathSet[k])).None?
    ensures var st := Collected(fs, db, cwd, pathSet, alg);
            exists p :: p in st.files && st.files[p] == Unknown
  {
    var a := Abspath(cwd, pathSet[k]);
    MissingUnderFiles(fs, db, cwd, pathSet, alg, k);
    AbspathIdempotent(cwd, pathSet[k]);
    assert GetStatus(fs, db, cwd, a, alg).code == Unknown;
  }
}

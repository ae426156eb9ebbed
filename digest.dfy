/** The digest engine of util.py: `hashfile` reads a file in fixed-size
    chunks into an incremental hash; `hashfiles` combines the digests of a
    directory's files in sorted-path order.

    The hash algorithm (MD5 by default) is a parameter `alg`: the hex digest
    it gives for a whole message. A hasher's state is the message absorbed so
    far, so feeding `a` and then `b` is feeding `a + b`. */
module Digest {
  import opened Base
  import opened Paths
  import opened FileSystem
  import Ordering

  type HashAlg = Bytes -> Bytes

  /** The block size every caller in the core uses. */
  const DefaultBlockSize: int := 65536

  datatype Hasher = Hasher(absorbed: Bytes)

  /** `halg.update(b)` */
  function Update(h: Hasher, b: Bytes): (h': Hasher)
    ensures h'.absorbed == h.absorbed + b
  {
    Hasher(h.absorbed + b)
  }

  /** `f.read(bs)` on a regular file positioned at `pos`: a negative size reads
      to the end, otherwise at most `bs` bytes. */
  function Read(data: Bytes, pos: nat, bs: int): (chunk: Bytes)
    requires pos <= |data|
    ensures pos + |chunk| <= |data|
    ensures chunk == data[pos..pos + |chunk|]
    ensures |chunk| == 0 <==> pos == |data| || bs == 0
  {
    if bs < 0 || pos + bs > |data| then data[pos..] else data[pos..pos + bs]
  }

  /** What `hashfile` promises: the digest of the whole content, except that
      a block size of 0 reads nothing and hashes the empty message. */
  function FileDigest(alg: HashAlg, data: Bytes, bs: int): Bytes {
    if bs == 0 then alg([]) else alg(data)
  }

  /** `hashfile(path, halg, bs)`: reads until the first empty chunk. */
  method HashFile(fs: FS, path: Path, alg: HashAlg, bs: int) returns (digest: Bytes)
    requires IsFile(fs, path)
    ensures digest == FileDigest(alg, fs[path].data, bs)
  {
    var data := fs[path].data;
    var pos := 0;
    var buff := Read(data, pos, bs);
    pos := pos + |buff|;
    var h := Update(Hasher([]), buff);
    while |buff| > 0
      invariant pos <= |data|
      invariant h.absorbed == data[..pos]
      invariant |buff| == 0 ==> pos == |data| || bs == 0
      invariant bs == 0 ==> pos == 0
      decreases |data| - pos, |buff|
    {
      buff := Read(data, pos, bs);
      assert data[..pos] + buff == data[..pos + |buff|];
      pos := pos + |buff|;
      h := Update(h, buff);
    }
    assert bs != 0 ==> data[..pos] == data;
    digest := alg(h.absorbed);
  }

  predicate AllFiles(fs: FS, paths: seq<Path>) {
    forall p :: p in paths ==> IsFile(fs, p)
  }

  /** The member digests, concatenated in the given order. */
  function ConcatDigests(fs: FS, paths: seq<Path>, alg: HashAlg, bs: int): Bytes
    requires AllFiles(fs, paths)
    decreases |paths|
  {
    if paths == [] then []
    else
      assert paths[0] in paths;
      FileDigest(alg, fs[paths[0]].data, bs) + ConcatDigests(fs, paths[1..], alg, bs)
  }

  /** `hashfiles(paths, halg, bs)` */
  function HashFiles(fs: FS, paths: seq<Path>, alg: HashAlg, bs: int): Bytes
    requires AllFiles(fs, paths)
  {
    var sorted := Ordering.Sort(paths);
    assert forall p :: p in sorted ==> p in multiset(paths);
    alg(ConcatDigests(fs, sorted, alg, bs))
  }

  /** The directory digest `get_status` and `check_integrity` compute. */
  function DirDigest(fs: FS, d: Path, alg: HashAlg): Bytes
    requires IsDir(fs, d)
  {
    HashFiles(fs, FileChildren(fs, d), alg, DefaultBlockSize)
  }

  /** The directory digest does not depend on the order the members are listed in. */
  lemma HashFilesOrderIndependent(fs: FS, a: seq<Path>, b: seq<Path>, alg: HashAlg, bs: int)
    requires AllFiles(fs, a)
    requires multiset(a) == multiset(b)
    ensures AllFiles(fs, b)
    ensures HashFiles(fs, a, alg, bs) == HashFiles(fs, b, alg, bs)
  {
    assert forall p :: p in b ==> p in multiset(a);
    Ordering.SortPermutationInvariant(a, b);
  }

  /** The digest of each member is fed exactly once, in sorted order: the
      combined message is the concatenation of the member digests member by
      member. */
  lemma {:induction false} ConcatDigestsAppend(fs: FS, a: seq<Path>, b: seq<Path>, alg: HashAlg, bs: int)
    requires AllFiles(fs, a) && AllFiles(fs, b)
    ensures AllFiles(fs, a + b)
    ensures ConcatDigests(fs, a + b, alg, bs) == ConcatDigests(fs, a, alg, bs) + ConcatDigests(fs, b, alg, bs)
    decreases |a|
  {
    var c := a + b;
    forall p | p in c ensures IsFile(fs, p) {
      assert p in a || p in b;
    }
    if a != [] {
      assert a[0] in a;
      assert c[0] == a[0] && c[1..] == a[1..] + b;
      ConcatDigestsAppend(fs, a[1..], b, alg, bs);
      var d := FileDigest(alg, fs[a[0]].data, bs);
      assert ConcatDigests(fs, c, alg, bs) == d + ConcatDigests(fs, a[1..] + b, alg, bs);
      assert ConcatDigests(fs, a, alg, bs) == d + ConcatDigests(fs, a[1..], alg, bs);
    } else {
      assert c == b;
    }
  }

  /** Only a directory's own listing and the content of its direct file
      members decide its digest: nested sub-directories, and everything
      outside the directory, do not. */
  lemma DirDigestShallow(fs1: FS, fs2: FS, d: Path, alg: HashAlg)
    requires IsDir(fs1, d) && IsDir(fs2, d)
    requires fs1[d].entries == fs2[d].entries
    requires forall e :: e in fs1[d].entries ==>
               (IsFile(fs1, Join(d, e)) <==> IsFile(fs2, Join(d, e))) &&
               (IsFile(fs1, Join(d, e)) ==> fs1[Join(d, e)] == fs2[Join(d, e)])
    ensures DirDigest(fs1, d, alg) == DirDigest(fs2, d, alg)
  {
    var cs := Children(fs1, d);
    assert cs == Children(fs2, d);
    forall p | p in cs ensures (IsFile(fs1, p) <==> IsFile(fs2, p)) && (IsFile(fs1, p) ==> fs1[p] == fs2[p]) {
      var k :| 0 <= k < |cs| && cs[k] == p;
      assert fs1[d].entries[k] in fs1[d].entries;
    }
    SameFilter(fs1, fs2, cs);
    var sorted := Ordering.Sort(FileChildren(fs1, d));
    assert forall p :: p in sorted ==> p in multiset(FileChildren(fs1, d));
    SameConcat(fs1, fs2, sorted, alg, DefaultBlockSize);
  }

  lemma {:induction false} SameFilter(fs1: FS, fs2: FS, ps: seq<Path>)
    requires forall p :: p in ps ==> (IsFile(fs1, p) <==> IsFile(fs2, p))
    ensures FilterFiles(fs1, ps) == FilterFiles(fs2, ps)
    decreases |ps|
  {
    if ps != [] { SameFilter(fs1, fs2, ps[1..]); }
  }

  lemma {:induction false} SameConcat(fs1: FS, fs2: FS, ps: seq<Path>, alg: HashAlg, bs: int)
    requires AllFiles(fs1, ps)
    requires forall p :: p in ps ==> IsFile(fs2, p) && fs1[p] == fs2[p]
    ensures AllFiles(fs2, ps)
    ensures ConcatDigests(fs1, ps, alg, bs) == ConcatDigests(fs2, ps, alg, bs)
    decreases |ps|
  {
    if ps != [] { SameConcat(fs1, fs2, ps[1..], alg, bs); }
  }
}

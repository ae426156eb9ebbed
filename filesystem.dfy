/** The filesystem as the core sees it through `os.path` and `os.listdir`:
    a map from absolute paths to nodes. */
module FileSystem {
  import opened Base
  import opened Paths

  /** A regular file, a directory with its listing in `os.listdir` order, or
      anything else that exists (a socket, a device, a fifo). */
  datatype Node = File(data: Bytes) | Dir(entries: seq<string>) | Other

  type FS = map<Path, Node>

  predicate Exists(fs: FS, p: Path) {
    p in fs
  }

  predicate IsFile(fs: FS, p: Path) {
    p in fs && fs[p].File?
  }

  predicate IsDir(fs: FS, p: Path) {
    p in fs && fs[p].Dir?
  }

  /** `[os.path.join(d, e) for e in os.listdir(d)]` */
  function Children(fs: FS, d: Path): seq<Path>
    requires IsDir(fs, d)
  {
    seq(|fs[d].entries|, k requires 0 <= k < |fs[d].entries| => Join(d, fs[d].entries[k]))
  }

  function FilterFiles(fs: FS, ps: seq<Path>): (r: seq<Path>)
    ensures forall p :: p in r ==> p in ps && IsFile(fs, p)
    ensures forall p :: p in ps && IsFile(fs, p) ==> p in r
    decreases |ps|
  {
    if ps == [] then []
    else if IsFile(fs, ps[0]) then [ps[0]] + FilterFiles(fs, ps[1..])
    else FilterFiles(fs, ps[1..])
  }

  /** `[os.path.join(d, f) for f in os.listdir(d) if os.path.isfile(os.path.join(d, f))]` */
  function FileChildren(fs: FS, d: Path): seq<Path>
    requires IsDir(fs, d)
  {
    FilterFiles(fs, Children(fs, d))
  }
}

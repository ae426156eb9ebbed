/** The status classifier and the integrity check of util.py: `get_status`
    compares a path's current digest against the last one the store holds,
    and `check_integrity` appends a corrective record when they drift apart. */
module Integrity {
  import opened Base
  import opened Paths
  import opened FileSystem
  import opened Digest
  import opened Store

  /** A digest as `get_status` returns it: the integer `0` it starts from, or
      a hex digest. */
  datatype Hash = NoHash | Hex(digest: Bytes)

  /** `(status, h, last_h)` */
  datatype Status = Status(code: Code, h: Hash, lastH: Hash)

  /** `check_integrity` on a recorded path that exists but is neither a file
      nor a directory reaches `get_last_digest() != h` with `h` unbound. */
  datatype IntegrityError = UnboundDigest(path: Path)

  /** `check_integrity`'s report and the store after it. */
  datatype Checked = Checked(broken: bool, db: Db)

  /** The digest the path has now: `hashfile` for a file, `hashfiles` over the
      direct file members for a directory, nothing for anything else. */
  function CurrentHash(fs: FS, p: Path, alg: HashAlg): (h: Hash)
    ensures h.Hex? <==> IsFile(fs, p) || IsDir(fs, p)
  {
    if IsFile(fs, p) then Hex(FileDigest(alg, fs[p].data, DefaultBlockSize))
    else if IsDir(fs, p) then Hex(DirDigest(fs, p, alg))
    else NoHash
  }

  /** The digest a new ItemEvent stores for the path (the ItemEvent constructor
      is not part of this model): the current one, or the `'0'` sentinel. */
  function StoredDigest(fs: FS, p: Path, alg: HashAlg): (d: Bytes)
    ensures CurrentHash(fs, p, alg).Hex? ==> d == CurrentHash(fs, p, alg).digest
    ensures CurrentHash(fs, p, alg).NoHash? ==> d == Sentinel
  {
    match CurrentHash(fs, p, alg)
    case Hex(d) => d
    case NoHash => Sentinel
  }

  function AsHash(d: Option<Bytes>): Hash {
    if d.Some? then Hex(d.value) else NoHash
  }

  /** `get_status(path)` for a process whose working directory is `cwd`. */
  function GetStatus(fs: FS, db: Db, cwd: Path, path: Path, alg: HashAlg): (s: Status)
    ensures s.h == (if Exists(fs, Abspath(cwd, path)) then CurrentHash(fs, Abspath(cwd, path), alg) else NoHash)
    ensures s.lastH == AsHash(RecordedDigest(db, cwd, Abspath(cwd, path)))
  {
    var abs := Abspath(cwd, path);
    var last := RecordedDigest(db, cwd, abs);
    if Exists(fs, abs) then
      var h := CurrentHash(fs, abs, alg);
      if last.Some? then
        Status(if Hex(last.value) != h then Modified else Unchanged, h, Hex(last.value))
      else Status(Created, h, NoHash)
    else if last.Some? then Status(Deleted, NoHash, Hex(last.value))
    else Status(Unknown, NoHash, NoHash)
  }

  /** The decision table of `get_status`, each row in both directions, stated
      over what the store knows about the path: whether an Item exists for it
      and the digest of its latest fact. */
  lemma GetStatusTable(fs: FS, db: Db, cwd: Path, path: Path, alg: HashAlg)
    requires Valid(db) && IsAbs(cwd)
    ensures var abs := Abspath(cwd, path);
            var s := GetStatus(fs, db, cwd, path, alg);
            var known := FindItem(db, abs).Some?;
            && (s.code == Unchanged <==> Exists(fs, abs) && known && s.h == s.lastH)
            && (s.code == Modified <==> Exists(fs, abs) && known && s.h != s.lastH)
            && (s.code == Created <==> Exists(fs, abs) && !known)
            && (s.code == Deleted <==> !Exists(fs, abs) && known)
            && (s.code == Unknown <==> !Exists(fs, abs) && !known)
  {
    var abs := Abspath(cwd, path);
    AbspathIdempotent(cwd, path);
    RecordedHasDigest(db, cwd, abs);
  }

  /** A path with no digest of its own (a socket, a fifo, a device) differs
      from any recorded digest. */
  lemma OtherRecordedIsModified(fs: FS, db: Db, cwd: Path, path: Path, alg: HashAlg)
    requires Exists(fs, Abspath(cwd, path))
    requires !IsFile(fs, Abspath(cwd, path)) && !IsDir(fs, Abspath(cwd, path))
    requires RecordedDigest(db, cwd, Abspath(cwd, path)).Some?
    ensures GetStatus(fs, db, cwd, path, alg).code == Modified
    ensures GetStatus(fs, db, cwd, path, alg).h == NoHash
  {
  }

  /** The command text of the corrective Event `check_integrity` synthesises. */
  function DriftCommand(c: Code): string {
    match c
    case Modified => "MODIFIED by (?)"
    case Created => "CREATED by (?)"
    case _ => "DELETED by (?)"
  }

  predicate IsDrift(c: Code) {
    c == Modified || c == Created || c == Deleted
  }

  /** The path whose file-type metadata `add_file_record` attaches: the
      stored Item's, or the new Item's. */
  function ItemPath(db: Db, cwd: Path, path: Path): Path {
    match FindItem(db, Abspath(cwd, path))
    case Some(i) => db.items[i].path
    case None => path
  }

  /** `add_file_record(abspath, cmd)` with the defaults `check_integrity`
      leaves in place: `status=False`, no metadata, no uuid, no group.
      `parseType` is the `attempt_parse_type` analyzer. */
  function Correct(db: Db, fs: FS, cwd: Path, abs: Path, alg: HashAlg,
                   parseType: Path -> seq<(string, string)>, cmd: string): Db {
    AddRecord(db, cwd, abs, cmd, None, [], None, None, parseType(ItemPath(db, cwd, abs)), StoredDigest(fs, abs, alg))
  }

  /** `check_integrity(path, skip_check=skip)`: whether the path drifted from
      the store, and the store with the corrective record added. */
  function Check(db: Db, fs: FS, cwd: Path, path: Path, alg: HashAlg,
                 parseType: Path -> seq<(string, string)>, skip: bool): (r: Result<Checked, IntegrityError>)
    // with skip_check nothing is compared and nothing is written
    ensures skip ==> r == Ok(Checked(false, db))
    ensures r.Ok? && !r.value.broken ==> r.value.db == db
    // drift is reported with the classification's own corrective command
    ensures r.Ok? && r.value.broken ==>
              var s := GetStatus(fs, db, cwd, path, alg);
              IsDrift(s.code) &&
              r.value.db == Correct(db, fs, cwd, Abspath(cwd, path), alg, parseType, DriftCommand(s.code))
    ensures r.Ok? ==> Extends(db, r.value.db)
    ensures r.Ok? ==> |r.value.db.facts| == |db.facts| + (if r.value.broken then 1 else 0)
  {
    var abs := Abspath(cwd, path);
    if skip then Ok(Checked(false, db))
    else
      var last := RecordedDigest(db, cwd, abs);
      if Exists(fs, abs) then
        if last.Some? then
          if !IsFile(fs, abs) && !IsDir(fs, abs) then Err(UnboundDigest(abs))
          else if Hex(last.value) != CurrentHash(fs, abs, alg) then
            Ok(Checked(true, Correct(db, fs, cwd, abs, alg, parseType, "MODIFIED by (?)")))
          else Ok(Checked(false, db))
        else Ok(Checked(true, Correct(db, fs, cwd, abs, alg, parseType, "CREATED by (?)")))
      else if last.Some? then Ok(Checked(true, Correct(db, fs, cwd, abs, alg, parseType, "DELETED by (?)")))
      else Ok(Checked(false, db))
  }

  /** Drift is reported exactly in the M, C and D cases of `get_status`, and
      the check fails exactly where `get_status` would say M for a path that
      has no digest. */
  lemma CheckMatchesStatus(db: Db, fs: FS, cwd: Path, path: Path, alg: HashAlg,
                           parseType: Path -> seq<(string, string)>)
    ensures var r := Check(db, fs, cwd, path, alg, parseType, false);
            var s := GetStatus(fs, db, cwd, path, alg);
            var abs := Abspath(cwd, path);
            && (r.Err? <==> Exists(fs, abs) && !IsFile(fs, abs) && !IsDir(fs, abs) && RecordedDigest(db, cwd, abs).Some?)
            && (r.Err? ==> s.code == Modified)
            && (r.Ok? ==> (r.value.broken <==> IsDrift(s.code)))
  {
  }

  /** Once a corrected file or directory is checked again, nothing drifts:
      the corrective record carries the current digest. */
  lemma CheckSettles(db: Db, fs: FS, cwd: Path, path: Path, alg: HashAlg,
                     parseType: Path -> seq<(string, string)>)
    requires IsAbs(cwd)
    requires IsFile(fs, Abspath(cwd, path)) || IsDir(fs, Abspath(cwd, path))
    ensures Check(db, fs, cwd, path, alg, parseType, false).Ok?
    ensures var db' := Check(db, fs, cwd, path, alg, parseType, false).value.db;
            Check(db', fs, cwd, path, alg, parseType, false) == Ok(Checked(false, db'))
  {
    var abs := Abspath(cwd, path);
    AbspathIdempotent(cwd, path);
    var r := Check(db, fs, cwd, path, alg, parseType, false);
    var db' := r.value.db;
    if r.value.broken {
      var cmd := DriftCommand(GetStatus(fs, db, cwd, path, alg).code);
      AddRecordThenLookup(db, cwd, abs, cmd, None, [], None, None, parseType(ItemPath(db, cwd, abs)), StoredDigest(fs, abs, alg));
      assert RecordedDigest(db', cwd, abs) == Some(StoredDigest(fs, abs, alg));
    }
  }

  /** A recorded path that is gone drifts on every check, not only the first:
      each check appends another "DELETED by (?)" record. */
  lemma CheckDeletedRepeats(db: Db, fs: FS, cwd: Path, path: Path, alg: HashAlg,
                            parseType: Path -> seq<(string, string)>)
    requires IsAbs(cwd)
    requires !Exists(fs, Abspath(cwd, path))
    requires RecordedDigest(db, cwd, Abspath(cwd, path)).Some?
    ensures var r := Check(db, fs, cwd, path, alg, parseType, false);
            r.Ok? && r.value.broken &&
            var r' := Check(r.value.db, fs, cwd, path, alg, parseType, false);
            r'.Ok? && r'.value.broken && |r'.value.db.facts| == |db.facts| + 2
  {
    var abs := Abspath(cwd, path);
    AbspathIdempotent(cwd, path);
    var db' := Check(db, fs, cwd, path, alg, parseType, false).value.db;
    AddRecordThenLookup(db, cwd, abs, "DELETED by (?)", None, [], None, None, parseType(ItemPath(db, cwd, abs)), StoredDigest(fs, abs, alg));
    assert RecordedDigest(db', cwd, abs).Some?;
  }

  /** A path that is neither a file nor a directory is first recorded as
      created; the next check of it then fails with the unbound digest. */
  lemma CheckOtherThenFails(db: Db, fs: FS, cwd: Path, path: Path, alg: HashAlg,
                            parseType: Path -> seq<(string, string)>)
    requires IsAbs(cwd)
    requires Exists(fs, Abspath(cwd, path))
    requires !IsFile(fs, Abspath(cwd, path)) && !IsDir(fs, Abspath(cwd, path))
    requires RecordedDigest(db, cwd, Abspath(cwd, path)).None?
    ensures var r := Check(db, fs, cwd, path, alg, parseType, false);
            r.Ok? && r.value.broken &&
            Check(r.value.db, fs, cwd, path, alg, parseType, false) == Err(UnboundDigest(Abspath(cwd, path)))
  {
    var abs := Abspath(cwd, path);
    AbspathIdempotent(cwd, path);
    var db' := Check(db, fs, cwd, path, alg, parseType, false).value.db;
    AddRecordThenLookup(db, cwd, abs, "CREATED by (?)", None, [], None, None, parseType(ItemPath(db, cwd, abs)), StoredDigest(fs, abs, alg));
    assert RecordedDigest(db', cwd, abs).Some?;
  }

  /** `check_integrity` on the store: the digest is computed by the chunked
      `hashfile` read for a file, and a drift appends its corrective record. */
  method CheckIntegrity(store: ProvenanceStore, fs: FS, cwd: Path, path: Path, alg: HashAlg,
                        parseType: Path -> seq<(string, string)>, skip: bool)
      returns (r: Result<bool, IntegrityError>)
    modifies store
    ensures var spec := Check(old(store.Value()), fs, cwd, path, alg, parseType, skip);
            && (spec.Ok? ==> r == Ok(spec.value.broken) && store.Value() == spec.value.db)
            && (spec.Err? ==> r == Err(spec.error) && store.Value() == old(store.Value()))
  {
    var abs := Abspath(cwd, path);
    if skip {
      return Ok(false);
    }
    var db := store.Value();
    var last := RecordedDigest(db, cwd, abs);
    if abs in fs {
      var h := NoHash;
      if IsFile(fs, abs) {
        var d := HashFile(fs, abs, alg, DefaultBlockSize);
        h := Hex(d);
      } else if IsDir(fs, abs) {
        h := Hex(DirDigest(fs, abs, alg));
      }
      assert h == CurrentHash(fs, abs, alg);
      if last.Some? {
        if !IsFile(fs, abs) && !IsDir(fs, abs) {
          return Err(UnboundDigest(abs));
        }
        if Hex(last.value) != h {
          Record(store, fs, cwd, abs, alg, parseType, "MODIFIED by (?)");
          return Ok(true);
        }
        return Ok(false);
      }
      Record(store, fs, cwd, abs, alg, parseType, "CREATED by (?)");
      return Ok(true);
    } else if last.Some? {
      Record(store, fs, cwd, abs, alg, parseType, "DELETED by (?)");
      return Ok(true);
    }
    return Ok(false);
  }

  /** `add_file_record(abspath, cmd)` */
  method Record(store: ProvenanceStore, fs: FS, cwd: Path, abs: Path, alg: HashAlg,
                parseType: Path -> seq<(string, string)>, cmd: string)
    modifies store
    ensures store.Value() == Correct(old(store.Value()), fs, cwd, abs, alg, parseType, cmd)
  {
    var fileMeta := parseType(ItemPath(store.Value(), cwd, abs));
    store.AddFileRecord(cwd, abs, cmd, None, [], None, None, fileMeta, StoredDigest(fs, abs, alg));
  }
}

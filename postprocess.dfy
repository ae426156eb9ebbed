/** The decisions `ChitinDaemon.handle_post` takes once a command has run:
    the early return on failure, the new paths the command's words name,
    the status of everything watched, and which statuses are written to the
    store. */
module PostProcess {
  import opened Base
  import opened Strings
  import opened Paths
  import opened FileSystem
  import opened Digest
  import opened Store
  import opened Integrity
  import opened StatusSet
  import opened Tokens

  /** One `util.write_status(path, status_code, cmd_str, usage=usage, ...)` call. */
  datatype Write = Write(path: Path, code: Code, usage: bool)

  /** How `handle_post` ends: the early return for a failed command, an
      exception from `parse_tokens` or from the tallies, or the original
      block put back on `output_q` with `"post"` set, after the writes made;
      `cmdStr` is the local command string rebuilt from the rewritten fields
      that those writes carry. */
  datatype Post =
    | Skipped
    | Raised
    | Posted(fields: seq<string>, cmdStr: string, added: Watched, writes: seq<Write>)

  /** `token_p["dirs"] - watched_dirs` and `token_p["files"] - watched_files`:
      the token paths not already watched. */
  function NewPaths(tokens: Watched, watched: Watched): (r: Watched)
    ensures r.dirs <= tokens.dirs && r.dirs !! watched.dirs
    ensures r.dirs + watched.dirs == tokens.dirs + watched.dirs
    ensures r.files <= tokens.files && r.files !! watched.files
    ensures r.files + watched.files == tokens.files + watched.files
  {
    Watched(tokens.files - watched.files, tokens.dirs - watched.dirs)
  }

  /** `watched_dirs | watched_files | new_files | new_dirs` */
  function StatusPaths(watched: Watched, added: Watched): set<Path> {
    watched.dirs + watched.files + added.files + added.dirs
  }

  /** The watch sets `parse_tokens` returns for `fields`. */
  function TokenSets(fs: FS, cwd: Path, env: Env, ignoreParents: bool, fields: seq<string>): Watched {
    Watched(set p | p in ConcatMap(FilesOf(fs, cwd, env), fields),
            set p | p in ConcatMap(DirsOf(fs, cwd, env, ignoreParents), fields))
  }

  /** `statii.items()`: the entries of a table in the order `keys` lists them. */
  function Entries(m: map<Path, Code>, keys: seq<Path>): seq<(Path, Code)>
    decreases |keys|
  {
    if keys == [] then []
    else
      var k := keys[|keys| - 1];
      Entries(m, keys[..|keys| - 1]) + (if k in m then [(k, m[k])] else [])
  }

  lemma {:induction false} EntriesMeans(m: map<Path, Code>, keys: seq<Path>, e: (Path, Code))
    ensures e in Entries(m, keys) <==> e.0 in keys && e.0 in m && m[e.0] == e.1
    decreases |keys|
  {
    if keys != [] {
      var n := |keys| - 1;
      EntriesMeans(m, keys[..n], e);
      assert keys == keys[..n] + [keys[n]];
    }
  }

  /** The write one entry makes: an unchanged path counts as a usage and is
      written only when the command names it. */
  function WriteOf(e: (Path, Code), fields: seq<string>): seq<Write> {
    if e.1 == Unchanged && e.0 !in fields then [] else [Write(e.0, e.1, e.1 == Unchanged)]
  }

  /** The writes of the loop over `entries`, in order. */
  function Kept(entries: seq<(Path, Code)>, fields: seq<string>): seq<Write>
    decreases |entries|
  {
    if entries == [] then []
    else Kept(entries[..|entries| - 1], fields) + WriteOf(entries[|entries| - 1], fields)
  }

  /** A write is made exactly for an entry that is changed, or unchanged
      and named by the command, and it is a usage exactly when unchanged. */
  lemma {:induction false} KeptMeans(entries: seq<(Path, Code)>, fields: seq<string>, w: Write)
    ensures w in Kept(entries, fields) <==>
            && (w.path, w.code) in entries
            && w.usage == (w.code == Unchanged)
            && (w.usage ==> w.path in fields)
    decreases |entries|
  {
    if entries != [] {
      var n := |entries| - 1;
      KeptMeans(entries[..n], fields, w);
      assert entries == entries[..n] + [entries[n]];
    }
  }

  /** The loop `for path, status_code in ...: ... util.write_status(...)`. */
  method UsageFilter(entries: seq<(Path, Code)>, fields: seq<string>) returns (writes: seq<Write>)
    ensures writes == Kept(entries, fields)
  {
    writes := [];
    var k := 0;
    while k < |entries|
      invariant k <= |entries|
      invariant writes == Kept(entries[..k], fields)
    {
      var (path, code) := entries[k];
      assert entries[..k + 1][..k] == entries[..k];
      var usage := false;
      if code == Unchanged {
        usage := true;
        if path !in fields {
          k := k + 1;
          continue;
        }
      }
      writes := writes + [Write(path, code, usage)];
      k := k + 1;
    }
    assert entries[..k] == entries;
  }

  predicate AllUnchanged(st: Statii) {
    && (forall q :: q in st.dirs ==> st.dirs[q] == Unchanged)
    && (forall q :: q in st.files ==> st.files[q] == Unchanged)
  }

  predicate HasUnknown(st: Statii) {
    || (exists q :: q in st.dirs && st.dirs[q] == Unknown)
    || (exists q :: q in st.files && st.files[q] == Unknown)
  }

  lemma {:induction false} CountAllOf(m: map<Path, Code>, ks: set<Path>, c: Code)
    requires ks <= m.Keys
    ensures Count(m, ks, c) <= |ks|
    ensures Count(m, ks, c) == |ks| <==> forall q :: q in ks ==> m[q] == c
    decreases |ks|
  {
    if ks != {} {
      var p :| p in ks;
      var rest := ks - {p};
      CountAllOf(m, rest, c);
      assert rest + {p} == ks;
      CountAdd(m, rest, p, c);
    }
  }

  /** `codes["U"] == sum(codes.values())` exactly when every status is `U`. */
  lemma UnchangedTally(st: Statii, report: Report)
    requires report.dCodes == Tallied(st.dirs) && report.fCodes == Tallied(st.files)
    requires forall c :: Get(report.codes, c) == Get(report.dCodes, c) + Get(report.fCodes, c)
    requires Total(report.codes) == |st.dirs| + |st.files|
    ensures Get(report.codes, Unchanged) == Total(report.codes) <==> AllUnchanged(st)
  {
    CountAllOf(st.dirs, st.dirs.Keys, Unchanged);
    CountAllOf(st.files, st.files.Keys, Unchanged);
    assert Get(report.codes, Unchanged) == Get(report.dCodes, Unchanged) + Get(report.fCodes, Unchanged);
  }

  /** `order(ks)` lists exactly the members of `ks`: Python's iteration order
      over a set, or over a dict's keys. */
  ghost predicate Enumerates(order: set<Path> -> seq<Path>) {
    forall ks: set<Path>, q: Path :: q in order(ks) <==> q in ks
  }

  /** What the writes of a tick are, path by path: with some status other
      than `U`, every changed path of either table is written, and an
      unchanged one exactly when the command names it. */
  lemma WrittenExactly(st: Statii, order: set<Path> -> seq<Path>, fields: seq<string>, w: Write)
    requires Enumerates(order)
    ensures w in Kept(Entries(st.dirs, order(st.dirs.Keys)) + Entries(st.files, order(st.files.Keys)), fields) <==>
            && ((w.path in st.dirs && st.dirs[w.path] == w.code) || (w.path in st.files && st.files[w.path] == w.code))
            && w.usage == (w.code == Unchanged)
            && (w.usage ==> w.path in fields)
  {
    var e := (w.path, w.code);
    KeptMeans(Entries(st.dirs, order(st.dirs.Keys)) + Entries(st.files, order(st.files.Keys)), fields, w);
    EntriesMeans(st.dirs, order(st.dirs.Keys), e);
    EntriesMeans(st.files, order(st.files.Keys), e);
  }

  /** The status tables `handle_post` computes for `fields`. */
  function PostStatus(fs: FS, db: Db, cwd: Path, alg: HashAlg, env: Env, ignoreParents: bool,
                      watched: Watched, order: set<Path> -> seq<Path>, fields: seq<string>): Statii {
    var added := NewPaths(TokenSets(fs, cwd, env, ignoreParents, fields), watched);
    Collected(fs, db, cwd, order(StatusPaths(watched, added)), alg)
  }

  /** The writes a tick with status tables `st` makes. */
  function PostWrites(st: Statii, order: set<Path> -> seq<Path>, fields: seq<string>): seq<Write> {
    if AllUnchanged(st) then []
    else Kept(Entries(st.dirs, order(st.dirs.Keys)) + Entries(st.files, order(st.files.Keys)), fields)
  }

  /** `fields = cmd_str.split(" ")` and `parse_tokens(fields, ...)`: the
      rewritten words and the watch sets, or the `IndexError`. */
  method RewriteCommand(fs: FS, cwd: Path, cmdStr: string, env: Env, ignoreParents: bool)
      returns (r: Result<(seq<string>, Watched), TokenError>)
    ensures r.Ok? <==> NoEmptyWord(Split(cmdStr, ' '), env)
    ensures r.Ok? ==> && RewrittenAll(fs, cwd, env, r.value.0, Split(cmdStr, ' '))
                      && r.value.1 == TokenSets(fs, cwd, env, ignoreParents, Split(cmdStr, ' '))
  {
    var fields := Split(cmdStr, ' ');
    var words := new string[|fields|](i requires 0 <= i < |fields| => fields[i]);
    assert words[..] == fields;
    var tokens := ParseTokens(words, env, fs, cwd, ignoreParents);
    if tokens.Err? {
      return Err(tokens.error);
    }
    return Ok((words[..], tokens.value));
  }

  /** `check_status_path_set(...)` and the writes that follow it; `None`
      when the tallies raise on a `?` status. */
  method StatusWrites(fs: FS, db: Db, cwd: Path, alg: HashAlg, paths: set<Path>,
                      order: set<Path> -> seq<Path>, fields: seq<string>)
      returns (r: Option<seq<Write>>)
    ensures r.None? <==> HasUnknown(Collected(fs, db, cwd, order(paths), alg))
    ensures r.Some? ==> r.value == PostWrites(Collected(fs, db, cwd, order(paths), alg), order, fields)
  {
    var status := CheckStatusPathSet(fs, db, cwd, order(paths), alg);
    if status.Err? {
      return None;
    }
    var report := status.value;
    UnchangedTally(Collected(fs, db, cwd, order(paths), alg), report);
    var writes := [];
    if Get(report.codes, Unchanged) != Total(report.codes) {
      writes := UsageFilter(Entries(report.dirs, order(report.dirs.Keys)) + Entries(report.files, order(report.files.Keys)),
                            fields);
    }
    return Some(writes);
  }

  /** `handle_post(block, output_q)`, past the unpacking of `block`: the
      watched sets are `block["cmd_block"]["wd"]` and `["wf"]`. */
  method HandlePost(fs: FS, db: Db, cwd: Path, alg: HashAlg, cmdStr: string, env: Env, ignoreParents: bool,
                    watched: Watched, returnCode: int, order: set<Path> -> seq<Path>)
      returns (p: Post)
    // a failed command returns before anything else
    ensures p.Skipped? <==> returnCode > 0
    ensures var fields := Split(cmdStr, ' ');
            p.Raised? <==>
              && returnCode <= 0
              && (!NoEmptyWord(fields, env) ||
                  HasUnknown(PostStatus(fs, db, cwd, alg, env, ignoreParents, watched, order, fields)))
    ensures p.Posted? ==>
              var fields := Split(cmdStr, ' ');
              && RewrittenAll(fs, cwd, env, p.fields, fields)
              && p.cmdStr == JoinWith(" ", p.fields)
              && p.added == NewPaths(TokenSets(fs, cwd, env, ignoreParents, fields), watched)
              && p.writes == PostWrites(PostStatus(fs, db, cwd, alg, env, ignoreParents, watched, order, fields),
                                        order, p.fields)
  {
    if returnCode > 0 {
      return Skipped;
    }
    var rewrite := RewriteCommand(fs, cwd, cmdStr, env, ignoreParents);
    if rewrite.Err? {
      return Raised;
    }
    var (rewritten, tokens) := rewrite.value;
    var added := NewPaths(tokens, watched);
    var writes := StatusWrites(fs, db, cwd, alg, StatusPaths(watched, added), order, rewritten);
    if writes.None? {
      return Raised;
    }
    return Posted(rewritten, JoinWith(" ", rewritten), added, writes.value);
  }
}

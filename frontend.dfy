/** The interactive side of `Chitin`: the ten-slot result buffer, the
    special commands, and turning a command line into a queued block. */
module FrontEnd {
  import opened Base
  import opened Strings
  import opened Paths
  import opened FileSystem
  import opened Tokens
  import opened Script
  import PostProcess

  /** `MAX_RESULTS` */
  const MaxResults: nat := 10

  /** What `print_results` and `print_stdout` show of a finished command. */
  datatype ResultBlock = ResultBlock(uuid: string, cmd: string, stdout: string)

  /** The dict `queue_command` puts on `cmd_q`; `fields` is the rewritten
      word list that travels in its `tokens` entry. */
  datatype CommandBlock = CommandBlock(
    uuid: string,
    group: Option<nat>,
    cmd: string,
    env: Env,
    wd: set<Path>,
    wf: set<Path>,
    inputMeta: map<string, map<string, string>>,
    fields: seq<string>,
    skipIntegrity: bool,
    ignoreParents: bool)

  // ---- the result ring buffer ----

  /** The buffer after storing `blocks` one by one from slot `ptr` on,
      wrapping around after the last slot. */
  function Ring(buf: seq<Option<ResultBlock>>, ptr: nat, blocks: seq<ResultBlock>): (r: seq<Option<ResultBlock>>)
    requires |buf| == MaxResults && ptr < MaxResults
    ensures |r| == MaxResults
    decreases |blocks|
  {
    if blocks == [] then buf
    else
      var n := |blocks| - 1;
      Ring(buf, ptr, blocks[..n])[(ptr + n) % MaxResults := Some(blocks[n])]
  }

  /** Each of the last ten blocks drained sits in the slot it was stored in. */
  lemma {:induction false} RingLatest(buf: seq<Option<ResultBlock>>, ptr: nat, blocks: seq<ResultBlock>, j: nat)
    requires |buf| == MaxResults && ptr < MaxResults
    requires j < |blocks| <= j + MaxResults
    ensures Ring(buf, ptr, blocks)[(ptr + j) % MaxResults] == Some(blocks[j])
    decreases |blocks|
  {
    var n := |blocks| - 1;
    if j < n {
      RingLatest(buf, ptr, blocks[..n], j);
      assert blocks[..n][j] == blocks[j];
      SlotsApart(ptr + j, n - j);
    }
  }

  /** Fewer than ten steps apart, two slots differ. */
  lemma SlotsApart(a: nat, d: nat)
    requires 0 < d < MaxResults
    ensures (a + d) % MaxResults != a % MaxResults
  {
    var q, r := a / MaxResults, a % MaxResults;
    assert a == q * MaxResults + r;
    if r + d < MaxResults {
      assert (a + d) % MaxResults == r + d;
    } else {
      assert a + d == (q + 1) * MaxResults + (r + d - MaxResults);
      assert (a + d) % MaxResults == r + d - MaxResults;
    }
  }

  /** A slot that fewer blocks were drained than it lies ahead of the
      cursor keeps its old block. */
  lemma {:induction false} RingUntouched(buf: seq<Option<ResultBlock>>, ptr: nat, blocks: seq<ResultBlock>, i: nat)
    requires |buf| == MaxResults && ptr < MaxResults && i < MaxResults
    requires |blocks| <= (i - ptr) % MaxResults
    ensures Ring(buf, ptr, blocks)[i] == buf[i]
    decreases |blocks|
  {
    if blocks != [] {
      var n := |blocks| - 1;
      RingUntouched(buf, ptr, blocks[..n], i);
      assert (ptr + n) % MaxResults != i;
    }
  }

  lemma RingSnoc(buf: seq<Option<ResultBlock>>, ptr: nat, q: seq<ResultBlock>, k: nat)
    requires |buf| == MaxResults && ptr < MaxResults && k < |q|
    ensures Ring(buf, ptr, q[..k + 1]) == Ring(buf, ptr, q[..k])[(ptr + k) % MaxResults := Some(q[k])]
  {
    assert q[..k + 1][..k] == q[..k];
  }

  /** `curr_result_ptr += 1`, reset to 0 at `MAX_RESULTS`. */
  lemma CursorStep(ptr: nat, k: nat)
    ensures (if (ptr + k) % MaxResults + 1 == MaxResults then 0 else (ptr + k) % MaxResults + 1) == (ptr + k + 1) % MaxResults
  {
  }

  /** The cursor comes back to where it started exactly when a multiple of
      ten blocks was drained. */
  lemma CursorMoved(ptr: nat, n: nat)
    requires ptr < MaxResults
    ensures (ptr + n) % MaxResults != ptr <==> n % MaxResults != 0
  {
    assert (ptr + n) % MaxResults == (ptr + n % MaxResults) % MaxResults;
  }

  /** `range(hi, lo, -1)` */
  function Countdown(hi: int, lo: int): (r: seq<int>)
    ensures |r| == if hi > lo then hi - lo else 0
    ensures forall k :: 0 <= k < |r| ==> r[k] == hi - k
    decreases hi - lo
  {
    if hi <= lo then [] else [hi] + Countdown(hi - 1, lo)
  }

  /** The slots `print_results` visits, in order. */
  function PrintOrder(ptr: nat): seq<int>
    requires ptr < MaxResults
  {
    Countdown(ptr - 1, -1) + Countdown(MaxResults - 1, ptr)
  }

  /** `print_results` walks back from the newest slot, wrapping around, and
      visits every slot but the cursor's, each once. */
  lemma PrintOrderMeans(ptr: nat)
    requires ptr < MaxResults
    ensures |PrintOrder(ptr)| == MaxResults - 1
    ensures forall k :: 0 <= k < MaxResults - 1 ==> PrintOrder(ptr)[k] == (ptr - 1 - k) % MaxResults
    ensures forall i :: i in PrintOrder(ptr) <==> 0 <= i < MaxResults && i != ptr
  {
    var o := PrintOrder(ptr);
    forall i | 0 <= i < MaxResults && i != ptr
      ensures i in o
    {
      if i < ptr {
        assert o[ptr - 1 - i] == i;
      } else {
        assert o[ptr + MaxResults - 1 - i] == i;
      }
    }
  }

  /** The slots of `order` that hold a block, in order. */
  function Occupied(buf: seq<Option<ResultBlock>>, order: seq<int>): seq<int>
    requires forall k :: 0 <= k < |order| ==> 0 <= order[k] < |buf|
    decreases |order|
  {
    if order == [] then []
    else
      var n := |order| - 1;
      Occupied(buf, order[..n]) + (if buf[order[n]].Some? then [order[n]] else [])
  }

  /** The listing loop of `print_results`: the visited slots that hold a
      block, in visiting order. */
  method ListOccupied(buf: seq<Option<ResultBlock>>, order: seq<int>) returns (listed: seq<int>)
    requires forall k :: 0 <= k < |order| ==> 0 <= order[k] < |buf|
    ensures listed == Occupied(buf, order)
  {
    listed := [];
    for k := 0 to |order|
      invariant listed == Occupied(buf, order[..k])
    {
      assert order[..k + 1][..k] == order[..k];
      if buf[order[k]].Some? {
        listed := listed + [order[k]];
      }
    }
    assert order[..|order|] == order;
  }

  /** A slot is listed exactly when it is visited and holds a block. */
  lemma {:induction false} OccupiedMeans(buf: seq<Option<ResultBlock>>, order: seq<int>, i: int)
    requires forall k :: 0 <= k < |order| ==> 0 <= order[k] < |buf|
    ensures i in Occupied(buf, order) <==> i in order && buf[i].Some?
    decreases |order|
  {
    if order != [] {
      var n := |order| - 1;
      OccupiedMeans(buf, order[..n], i);
      assert order == order[..n] + [order[n]];
    }
  }

  lemma ModShift(x: int, y: int)
    ensures (x % MaxResults + y) % MaxResults == (x + y) % MaxResults
  {
    var q := x / MaxResults;
    assert x % MaxResults + y == (x + y) - MaxResults * q;
  }

  /** After a drain, the listing starts with the newest blocks: its `k`-th
      visited slot holds the `k`-th block counted back from the last one. */
  lemma NewestFirst(buf: seq<Option<ResultBlock>>, ptr: nat, blocks: seq<ResultBlock>, k: nat)
    requires |buf| == MaxResults && ptr < MaxResults
    requires k < |blocks| && k < MaxResults - 1
    ensures var ptr' := (ptr + |blocks|) % MaxResults;
            Ring(buf, ptr, blocks)[PrintOrder(ptr')[k]] == Some(blocks[|blocks| - 1 - k])
  {
    var ptr' := (ptr + |blocks|) % MaxResults;
    PrintOrderMeans(ptr');
    var j := |blocks| - 1 - k;
    ModShift(ptr + |blocks|, -1 - k);
    assert PrintOrder(ptr')[k] == (ptr + j) % MaxResults;
    RingLatest(buf, ptr, blocks, j);
  }

  // ---- special commands ----

  /** The special command a line asks for. */
  datatype Special =
    | Plain                   // no `@` or `%` in front
    | RunScript               // `%script <path> [token ...]`
    | ShowStdout              // `%o <job>`
    | ListJobs                // `%j`
    | ToggleQuiet             // `%q`
    | ToggleIntegrity         // `%i`
    | Query(name: string)     // `%history`, `%how`, `%needed`, `%hashdir`
    | Unknown(name: string)   // anything else after `@` or `%`

  /** The keys of `special_commands`. */
  predicate IsQuery(name: string) {
    name == "history" || name == "how" || name == "needed" || name == "hashdir"
  }

  /** `fields[0][1:]`: the name after the `@` or `%`. */
  function SpecialName(cmdStr: string): string {
    var first := Split(cmdStr, ' ')[0];
    if |first| == 0 then "" else first[1..]
  }

  function Classify(cmdStr: string): (s: Special)
    requires |cmdStr| > 0
  {
    if cmdStr[0] != '@' && cmdStr[0] != '%' then Plain
    else
      var name := SpecialName(cmdStr);
      if name == "script" then RunScript
      else if name == "o" then ShowStdout
      else if name == "j" then ListJobs
      else if name == "q" then ToggleQuiet
      else if name == "i" then ToggleIntegrity
      else if IsQuery(name) then Query(name)
      else Unknown(name)
  }

  /** A line is special exactly when it starts with `@` or `%`, and then its
      kind is decided by the first word less that character. */
  lemma ClassifyMeans(cmdStr: string)
    requires |cmdStr| > 0
    ensures Classify(cmdStr).Plain? <==> cmdStr[0] != '@' && cmdStr[0] != '%'
    ensures Classify(cmdStr) == ToggleQuiet <==> (cmdStr[0] == '@' || cmdStr[0] == '%') && SpecialName(cmdStr) == "q"
    ensures Classify(cmdStr) == ToggleIntegrity <==> (cmdStr[0] == '@' || cmdStr[0] == '%') && SpecialName(cmdStr) == "i"
    ensures Classify(cmdStr).Query? ==> IsQuery(Classify(cmdStr).name)
  {
  }

  /** `self.results[pos]` for the job number `%o` is given: Python allows
      negative positions counted from the end. */
  function StdoutAt(buf: seq<Option<ResultBlock>>, pos: int): (r: Result<Option<ResultBlock>, Failure>)
    ensures r.Ok? <==> -|buf| <= pos < |buf|
  {
    if 0 <= pos < |buf| then Ok(buf[pos])
    else if -|buf| <= pos < 0 then Ok(buf[|buf| + pos])
    else Err(Failure.IndexError)
  }

  /** What `attempt_special` hands back to the shell loop, with what it shows:
      the job slots `%j` lists and the block `%o` prints. */
  datatype Reply = Reply(skip: bool, commands: seq<string>, listed: seq<int>, shown: Option<ResultBlock>)

  /** `self.print_stdout(int(fields[1]))` for `%o`: the block in that slot. */
  function StdoutReply(buf: seq<Option<ResultBlock>>, fields: seq<string>): (r: Result<Reply, Failure>)
  {
    if |fields| < 2 then Err(Failure.IndexError)
    else match ParseInt(fields[1])
      case None => Err(ValueError(fields[1]))
      case Some(pos) => match StdoutAt(buf, pos)
        case Err(e) => Err(e)
        case Ok(b) => Ok(Reply(true, [], [], b))
  }

  /** `parse_script(fields[1], *fields[2:])` for `%script`, with the script
      files given as their lines by path. */
  function ScriptOutcome(fields: seq<string>, scripts: map<string, seq<string>>): Result<(seq<string>, map<string, string>), Failure> {
    if |fields| < 2 then Err(Failure.IndexError)
    else if fields[1] !in scripts then Err(IOError(fields[1]))
    else ParsedScript(fields[1], scripts[fields[1]], fields[2..])
  }

  // ---- handle_command ----

  /** `token_p["fields"]`: every word substituted and, when it names an
      existing path, made absolute. */
  function RewrittenFields(fs: FS, cwd: Path, env: Env, fields: seq<string>): (r: seq<string>)
    ensures |r| == |fields| && forall k :: 0 <= k < |fields| ==> r[k] == RewriteField(fs, cwd, env, fields[k])
  {
    seq(|fields|, k requires 0 <= k < |fields| => RewriteField(fs, cwd, env, fields[k]))
  }

  /** `" ".join(token_p["fields"])` */
  function CommandLine(fs: FS, cwd: Path, env: Env, fields: seq<string>): string {
    JoinWith(" ", RewrittenFields(fs, cwd, env, fields))
  }

  /** The watched directories: those `parse_tokens` found, and `.` unless
      `ignore_dot` is set. */
  function WatchDirs(fs: FS, cwd: Path, env: Env, ignoreParents: bool, ignoreDot: bool, fields: seq<string>): set<Path> {
    var dirs := PostProcess.TokenSets(fs, cwd, env, ignoreParents, fields).dirs;
    if ignoreDot then dirs else dirs + {"."}
  }

  /** The block `handle_command` queues for `fields`. */
  function BlockFor(fs: FS, cwd: Path, env: Env, inputMeta: map<string, map<string, string>>, group: Option<nat>,
                    uuid: string, fields: seq<string>, skipIntegrity: bool, ignoreParents: bool, ignoreDot: bool): CommandBlock
  {
    CommandBlock(uuid, group, CommandLine(fs, cwd, env, fields), env,
                 WatchDirs(fs, cwd, env, ignoreParents, ignoreDot, fields),
                 PostProcess.TokenSets(fs, cwd, env, ignoreParents, fields).files,
                 inputMeta, RewrittenFields(fs, cwd, env, fields), skipIntegrity, ignoreParents)
  }

  /** The queued command line splits back into the rewritten words, as
      `super_handle` splits each command before handling it, as long as no
      rewritten word holds a space. */
  lemma CommandLineSplits(fs: FS, cwd: Path, env: Env, fields: seq<string>)
    requires |fields| >= 1
    requires forall k :: 0 <= k < |fields| ==> ' ' !in RewriteField(fs, cwd, env, fields[k])
    ensures Split(CommandLine(fs, cwd, env, fields), ' ') == RewrittenFields(fs, cwd, env, fields)
  {
    SplitJoin(RewrittenFields(fs, cwd, env, fields), ' ');
  }

  /** `.` is watched unless `ignore_dot` is set, and every directory
      `parse_tokens` found is watched in either case. */
  lemma WatchDirsMeans(fs: FS, cwd: Path, env: Env, ignoreParents: bool, ignoreDot: bool, fields: seq<string>, p: Path)
    ensures p in WatchDirs(fs, cwd, env, ignoreParents, ignoreDot, fields) <==>
            p in PostProcess.TokenSets(fs, cwd, env, ignoreParents, fields).dirs || (!ignoreDot && p == ".")
  {
  }

  /** `util.parse_tokens(fields, ...)` on a fresh list of the words: the
      rewritten words and the watch sets. */
  method Tokenize(fields: seq<string>, env: Env, fs: FS, cwd: Path, ignoreParents: bool)
      returns (r: Result<(seq<string>, Watched), TokenError>)
    ensures r.Ok? <==> NoEmptyWord(fields, env)
    ensures r.Ok? ==> r.value == (RewrittenFields(fs, cwd, env, fields), PostProcess.TokenSets(fs, cwd, env, ignoreParents, fields))
  {
    var words := new string[|fields|](k requires 0 <= k < |fields| => fields[k]);
    assert words[..] == fields;
    var parsed := ParseTokens(words, env, fs, cwd, ignoreParents);
    if parsed.Err? {
      return Err(parsed.error);
    }
    RewrittenAllMeans(fs, cwd, env, words[..], fields);
    assert words[..] == RewrittenFields(fs, cwd, env, fields);
    return Ok((words[..], parsed.value));
  }

  // ---- the shell object ----

  class Chitin {
    var variables: Env
    var meta: map<string, map<string, string>>
    var skipIntegrity: bool
    var suppress: bool
    var ignoreDot: bool
    var ignoreParents: bool
    var cmdQ: seq<CommandBlock>
    var resultQ: seq<ResultBlock>
    var currResultPtr: nat
    const results: array<Option<ResultBlock>>

    predicate Valid()
      reads this
    {
      results.Length == MaxResults && currResultPtr < MaxResults
    }

    /** `Chitin()`, less the daemon process it starts. */
    constructor ()
      ensures Valid() && fresh(results)
      ensures variables == [] && meta == map[]
      ensures !skipIntegrity && !suppress && !ignoreDot && !ignoreParents
      ensures cmdQ == [] && resultQ == [] && currResultPtr == 0
      ensures forall i :: 0 <= i < MaxResults ==> results[i].None?
    {
      variables, meta := [], map[];
      skipIntegrity, suppress, ignoreDot, ignoreParents := false, false, false, false;
      cmdQ, resultQ := [], [];
      currResultPtr := 0;
      results := new Option<ResultBlock>[MaxResults](_ => None);
    }

    /** `move_result_q`: drains `result_q` into the buffer and says whether
        the cursor moved. */
    method MoveResultQ() returns (moved: bool)
      requires Valid()
      modifies this`resultQ, this`currResultPtr, results
      ensures Valid()
      ensures results[..] == Ring(old(results[..]), old(currResultPtr), old(resultQ))
      ensures currResultPtr == (old(currResultPtr) + |old(resultQ)|) % MaxResults
      ensures resultQ == []
      ensures moved <==> |old(resultQ)| % MaxResults != 0
    {
      var start := currResultPtr;
      ghost var buf := results[..];
      ghost var q := resultQ;
      ghost var k := 0;
      while resultQ != []
        invariant Valid()
        invariant k <= |q| && resultQ == q[k..]
        invariant results[..] == Ring(buf, start, q[..k])
        invariant currResultPtr == (start + k) % MaxResults
        decreases |resultQ|
      {
        var block := resultQ[0];
        resultQ := resultQ[1..];
        ghost var before := results[..];
        results[currResultPtr] := Some(block);
        assert results[..] == before[currResultPtr := Some(block)];
        RingSnoc(buf, start, q, k);
        CursorStep(start, k);
        currResultPtr := currResultPtr + 1;
        if currResultPtr == MaxResults {
          currResultPtr := 0;
        }
        k := k + 1;
      }
      assert q[..k] == q;
      CursorMoved(start, |q|);
      moved := start != currResultPtr;
    }

    /** `print_results(force)`: drains `result_q`, then lists the occupied
        slots newest first if the cursor moved or `force` is set. */
    method PrintResults(force: bool) returns (listed: seq<int>)
      requires Valid()
      modifies this`resultQ, this`currResultPtr, results
      ensures Valid()
      ensures results[..] == Ring(old(results[..]), old(currResultPtr), old(resultQ))
      ensures currResultPtr == (old(currResultPtr) + |old(resultQ)|) % MaxResults
      ensures resultQ == []
      ensures listed == if |old(resultQ)| % MaxResults != 0 || force then Occupied(results[..], PrintOrder(currResultPtr)) else []
    {
      var moved := MoveResultQ();
      listed := [];
      if moved || force {
        PrintOrderMeans(currResultPtr);
        listed := ListOccupied(results[..], PrintOrder(currResultPtr));
      }
    }

    /** `self.meta.update(meta)` after `parse_script(path, *tokens)` on the
        script's `lines`, returning the commands. */
    method ParseScript(path: string, lines: seq<string>, tokens: seq<string>) returns (r: Result<seq<string>, Failure>)
      modifies this`meta
      ensures var p := ParsedScript(path, lines, tokens);
              && (r.Ok? <==> p.Ok?)
              && (r.Ok? ==> r.value == p.value.0 && meta == old(meta)["script" := p.value.1])
              && (r.Err? ==> r.error == p.error && meta == old(meta))
    {
      var split := SplitBlocks(ScriptLines(lines));
      if split.Err? {
        return Err(split.error);
      }
      var fixed := FixBlocks(split.value, tokens, path);
      if fixed.Err? {
        return Err(fixed.error);
      }
      meta := meta["script" := fixed.value.1];
      return Ok(fixed.value.0);
    }

    /** `self.parse_script(fields[1], *fields[2:])` for `%script`. */
    method RunScriptCommand(fields: seq<string>, scripts: map<string, seq<string>>) returns (r: Result<seq<string>, Failure>)
      modifies this`meta
      ensures match ScriptOutcome(fields, scripts)
              case Ok(v) => r == Ok(v.0) && meta == old(meta)["script" := v.1]
              case Err(e) => r == Err(e) && meta == old(meta)
    {
      if |fields| < 2 {
        return Err(Failure.IndexError);
      }
      if fields[1] !in scripts {
        return Err(IOError(fields[1]));
      }
      r := ParseScript(fields[1], scripts[fields[1]], fields[2..]);
    }

    /** `attempt_special(cmd_str)`, with the script files given as their
        lines by path. */
    method AttemptSpecial(cmdStr: string, scripts: map<string, seq<string>>) returns (r: Result<Reply, Failure>)
      requires Valid()
      modifies this`suppress, this`skipIntegrity, this`meta, this`resultQ, this`currResultPtr, results
      ensures Valid()
      ensures cmdStr == [] ==> r == Err(Failure.IndexError)
      ensures cmdStr != [] && Classify(cmdStr).Plain? ==> r == Ok(Reply(false, [], [], None))
      ensures cmdStr != [] && Classify(cmdStr) == ToggleQuiet ==> r == Ok(Reply(true, [], [], None)) && suppress == !old(suppress)
      ensures !(cmdStr != [] && Classify(cmdStr) == ToggleQuiet) ==> suppress == old(suppress)
      ensures cmdStr != [] && Classify(cmdStr) == ToggleIntegrity ==> r == Ok(Reply(true, [], [], None)) && skipIntegrity == !old(skipIntegrity)
      ensures !(cmdStr != [] && Classify(cmdStr) == ToggleIntegrity) ==> skipIntegrity == old(skipIntegrity)
      ensures cmdStr != [] && Classify(cmdStr) == ListJobs ==>
              && results[..] == Ring(old(results[..]), old(currResultPtr), old(resultQ))
              && currResultPtr == (old(currResultPtr) + |old(resultQ)|) % MaxResults && resultQ == []
              && r == Ok(Reply(true, [], Occupied(results[..], PrintOrder(currResultPtr)), None))
      ensures !(cmdStr != [] && Classify(cmdStr) == ListJobs) ==>
              results[..] == old(results[..]) && currResultPtr == old(currResultPtr) && resultQ == old(resultQ)
      ensures cmdStr != [] && Classify(cmdStr) == ShowStdout ==> r == StdoutReply(results[..], Split(cmdStr, ' '))
      ensures cmdStr != [] && Classify(cmdStr) == RunScript ==>
              match ScriptOutcome(Split(cmdStr, ' '), scripts)
              case Ok(v) => r == Ok(Reply(false, v.0, [], None)) && meta == old(meta)["script" := v.1]
              case Err(e) => r == Err(e) && meta == old(meta)
      ensures !(cmdStr != [] && Classify(cmdStr) == RunScript) ==> meta == old(meta)
      ensures cmdStr != [] && (Classify(cmdStr).Query? || Classify(cmdStr).Unknown?) ==> r == Ok(Reply(true, [], [], None))
    {
      if cmdStr == [] {
        return Err(Failure.IndexError);
      }
      var fields := Split(cmdStr, ' ');
      var kind := Classify(cmdStr);
      match kind {
        case Plain =>
          r := Ok(Reply(false, [], [], None));
        case RunScript =>
          var cmds := RunScriptCommand(fields, scripts);
          if cmds.Err? {
            return Err(cmds.error);
          }
          r := Ok(Reply(false, cmds.value, [], None));
        case ShowStdout =>
          r := StdoutReply(results[..], fields);
        case ListJobs =>
          var listed := PrintResults(true);
          r := Ok(Reply(true, [], listed, None));
        case ToggleQuiet =>
          suppress := !suppress;
          r := Ok(Reply(true, [], [], None));
        case ToggleIntegrity =>
          skipIntegrity := !skipIntegrity;
          r := Ok(Reply(true, [], [], None));
        case Query(_) =>
          r := Ok(Reply(true, [], [], None));
        case Unknown(_) =>
          r := Ok(Reply(true, [], [], None));
      }
    }

    /** `handle_command(fields, env_variables, input_meta, dry, group)` with
        the command's uuid given: a dry run returns the rewritten command
        line, otherwise the block is queued. `parse_tokens`'s `IndexError`
        on a word that substitutes to nothing propagates. */
    method HandleCommand(fields: seq<string>, env: Env, inputMeta: map<string, map<string, string>>, dry: bool,
                         group: Option<nat>, fs: FS, cwd: Path, uuid: string)
        returns (r: Result<Option<string>, TokenError>)
      modifies this`cmdQ
      ensures r.Ok? <==> NoEmptyWord(fields, env)
      ensures r.Ok? && dry ==> r.value == Some(CommandLine(fs, cwd, env, fields)) && cmdQ == old(cmdQ)
      ensures r.Ok? && !dry ==>
              && r.value == None
              && cmdQ == old(cmdQ) + [BlockFor(fs, cwd, env, inputMeta, group, uuid, fields, skipIntegrity, ignoreParents, ignoreDot)]
      ensures r.Err? ==> cmdQ == old(cmdQ)
    {
      var parsed := Tokenize(fields, env, fs, cwd, ignoreParents);
      if parsed.Err? {
        return Err(parsed.error);
      }
      var words := parsed.value.0;
      var dirs := parsed.value.1.dirs;
      if !ignoreDot {
        dirs := dirs + {"."};
      }
      var cmdStr := JoinWith(" ", words);
      if dry {
        return Ok(Some(cmdStr));
      }
      cmdQ := cmdQ + [CommandBlock(uuid, group, cmdStr, env, dirs, parsed.value.1.files, inputMeta, words, skipIntegrity, ignoreParents)];
      return Ok(None);
    }
  }
}

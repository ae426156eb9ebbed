# chitin, modelled in Dafny

chitin is the provenance-tracking shell of the labbook project. Every command the user types is treated as follows:

- Its words are resolved against the file system. Bound `$NAME` variables are substituted, and a word that names an existing path is rewritten to its absolute form.
- Its inputs are checked against a store of file records, to spot files modified outside the shell.
- It is queued to a daemon that runs it and post-processes it.
- Afterwards, the watched paths are classified as created (`C`), modified (`M`), deleted (`D`) or unchanged (`U`), and the changes are written back to the store as provenance facts.

Queries over the store answer several questions:

- how a file came to have a digest;
- which commands a file depends on;
- what a directory held at a given digest;
- what happened to a path.

A front end keeps a ten-slot ring buffer of finished jobs, whose cursor is `curr_result_ptr`, handles `%` special commands and expands scripts into command blocks.

This project models that core and proves properties of it.

- **External systems as values.** The file system, the record store and the hash algorithm are values. The file system is a map from paths to files and directories. The store is four append-only sequences: items, events, item events and metadata. The hash is a function on bytes.
- **Where state is updated in place.** The store, the daemon and the shell are classes, as in the source:
  - the record store (`Store.ProvenanceStore`);
  - the daemon loop (`Scheduler.Daemon`);
  - the shell (`FrontEnd.Chitin`, with its `results` array).
- **Loops.** The loops of the source are `while`/`for` loops in methods. Each method with a loop is proved equal to a specification function (for `needed`, `Queries.Drain`), and the properties the source promises are proved about those functions.

Modules follow the source:

- `Strings`, `Paths`, `Ordering` and `FileSystem` cover the Python built-ins the core relies on:
  - `str.replace`, `str.split`, `str.join` and `strip`;
  - `os.path.abspath` and `normpath`;
  - `sorted`;
  - `os.path.exists`, `isfile`, `isdir` and `listdir`.
- `Digest`: `hashfile` and `hashfiles`.
- `Store`: the record store and `add_file_record`.
- `Integrity`: `get_status` and `check_integrity`.
- `IntegritySet`: `check_integrity_set`.
- `StatusSet`: `check_status_path_set`.
- `Tokens`: `parse_tokens`.
- `Scheduler`: `ChitinDaemon.orchestrate`.
- `PostProcess`: `ChitinDaemon.handle_post`.
- `Queries`: `how`, `history`, `hashdir` and `needed`.
- `Script`: the pure parts of `Chitin.parse_script`.
- `FrontEnd`: the `Chitin` shell object.

Inputs the source takes from its environment are parameters:

- the file system (`fs`);
- the working directory (`cwd`);
- the hash algorithm (`alg`);
- the `cmd` analyzer `attempt_parse_type` (`parseType`);
- the `uuid4` of a new command (`uuid`);
- the iteration order of a Python set or dict (`order`);
- the lines of a script file, given by path (`scripts`, `lines`).

Checking a missing recorded path reports `D` and drift every time: chitin/util.py:169-171 appends another `DELETED by (?)` record on each check. `Integrity.CheckDeletedRepeats` states it.

## Model

| member | source | states |
|---|---|---|
| Store.FindItem | chitin/util.py:15-21 | `get_file_record`: the first item with the path in insertion order, or none when no item has it |
| Store.FindEvent | chitin/util.py:76-80 | the uuid lookup of `add_file_record`: the first event with that uuid, or none |
| Store.LastDigest | chitin/util.py:38 | `get_last_digest` exists exactly when the item has at least one fact |
| Store.RecordedHasDigest | chitin/util.py:36-43 | in a valid store a path is recorded exactly when it has a last digest, so `get_last_digest` never raises for a known path |
| Store.AddRecord | chitin/util.py:68-107 | `add_file_record`: creates an item only if none has the path; reuses the event with the same uuid and attaches the command metadata only to a new event; appends exactly one item event; skips file-type metadata when the status is `D`; the store only grows |
| Store.AddRecordThenLookup | chitin/util.py:68-107 | after a record, the path is found and its last digest is the digest just stored |
| Store.AddRecordValid | chitin/util.py:68-107 | recording keeps every reference of the store in range |
| Store.ProvenanceStore.AddFileRecord | chitin/util.py:68-107 | the method that adds the item, event, metadata rows and item event one after another leaves the store equal to `AddRecord` of the old store |
| Store.ProvenanceStore.TouchItem | chitin/util.py:69-73 | the item is the first with the same absolute path, or a new one appended last, and only the item list changes |
| Store.ProvenanceStore.TouchEvent | chitin/util.py:75-93 | the event is the first with the same non-empty uuid, or a new one appended last together with the command's metadata rows |
| Store.ProvenanceStore.AttachMeta | chitin/util.py:89-93 | one metadata row per command metadatum, in order, appended to the store |
| Store.ProvenanceStore.AttachFileMeta | chitin/util.py:101-105 | one metadata row per file-type metadatum, categorised by the item's path |
| Digest.Read | chitin/util.py:238 | `f.read(bs)`: a contiguous chunk of the rest of the file, empty exactly at the end of the file or when `bs` is 0 |
| Digest.HashFile | chitin/util.py:236-245 | the chunked read loop feeds the whole content, in order and exactly once, to the hasher; only a block size of 0 hashes the empty message |
| Digest.HashFilesOrderIndependent | chitin/util.py:247-251 | `hashfiles` sorts its paths first, so any permutation of the same paths gives the same digest |
| Digest.ConcatDigestsAppend | chitin/util.py:249-250 | folding the per-file digests over a concatenation of two path lists concatenates the two folds |
| Digest.DirDigestShallow | chitin/util.py:34 | a directory's digest depends only on its direct regular-file members; subdirectories and anything outside it do not count |
| Ordering.Sort | chitin/util.py:140 | `sorted`: ordered and a permutation of its input |
| Ordering.SortedUnique | chitin/util.py:140 | two sorted sequences with the same elements are equal, so `sorted` has exactly one possible result |
| Ordering.SortPermutationInvariant | chitin/util.py:249 | `sorted` depends only on the multiset of its input |
| Ordering.BelowTotal | chitin/util.py:249 | string order is total, as `sorted` requires; `BelowReflexive`, `BelowAntisymmetric` and `BelowTransitive` give the other order laws |
| Paths.NormpathIdempotent | chitin/util.py:194 | `os.path.normpath` applied to its own result changes nothing |
| Paths.AbspathIdempotent | chitin/util.py:194 | in an absolute working directory, `os.path.abspath` gives an absolute path that it then maps to itself |
| Strings.JoinSplit | chitin/__init__.py:215-219 | `" ".join(s.split(" "))` gives back `s` |
| Strings.SplitJoin | chitin/__init__.py:405 | splitting a join of pieces that contain no separator gives the pieces back |
| Strings.ReplaceLeftmost | chitin/util.py:187 | `str.replace` replaces the leftmost occurrence and keeps everything before it |
| Strings.ReplaceAbsent | chitin/util.py:186-187 | a pattern that does not occur leaves the string unchanged, so the `in` guard before `replace` changes no result |
| Strings.ReplaceDeletes | chitin/util.py:193 | `field.replace(";", "")` leaves no `;` in the word |
| Integrity.GetStatus | chitin/util.py:23-54 | `get_status`: the current hash is taken only for a path that exists; the last hash is the recorded one, when there is one |
| Integrity.GetStatusTable | chitin/util.py:30-52 | the decision table, in both directions: `U` when the path exists, is recorded and its digest is the same; `M` when it exists, is recorded and its digest differs; `C` when it exists and is unrecorded; `D` when it is missing and recorded; `?` when it is missing and unrecorded |
| Integrity.OtherRecordedIsModified | chitin/util.py:26-44 | a recorded path that is neither a file nor a directory keeps `h = 0` and is classified `M` |
| Integrity.Check | chitin/util.py:142-179 | `check_integrity`: with `skip_check`, no drift and nothing written. Otherwise, a drift appends exactly one record, carrying the `MODIFIED`/`CREATED`/`DELETED by (?)` command that matches the status, and no drift writes nothing. The store only grows |
| Integrity.CheckMatchesStatus | chitin/util.py:152-171 | without `skip_check`, drift is reported exactly in the `M`, `C` and `D` cases of `get_status`. It raises exactly for a recorded path that is neither a file nor a directory, because `h` is then unbound |
| Integrity.CheckSettles | chitin/util.py:160-168 | once a file or directory has been corrected, checking it again reports no drift and writes nothing |
| Integrity.CheckDeletedRepeats | chitin/util.py:169-171 | a recorded path that is gone drifts on every check, and each check appends another record |
| Integrity.CheckOtherThenFails | chitin/util.py:153-168 | an unrecorded path that is neither a file nor a directory is first recorded as created; checking it again then raises |
| Integrity.CheckIntegrity | chitin/util.py:142-179 | the method over the store: it returns the drift flag and leaves the store as `Check` says; on the error the store is unchanged |
| Integrity.Record | chitin/util.py:163-170 | the corrective `add_file_record` writes the record `Check` specifies |
| IntegritySet.RunFromFailed | chitin/util.py:112-139 | only checked paths are reported as failed, and the store only grows |
| IntegritySet.TargetsSkip | chitin/util.py:117-118 | with `skip_check`, only the watched paths themselves are checked: no children and no grandchildren |
| IntegritySet.ChildTargetsShape | chitin/util.py:120-139 | a watched directory's checked children are its subdirectories, the unwatched files of those subdirectories and its own unwatched non-directories |
| IntegritySet.GrandTargetsShape | chitin/util.py:127-133 | inside a child directory, exactly the regular files not in `path_set` are checked |
| IntegritySet.RunFromSticky | chitin/util.py:113-139 | an exception ends the loop; later paths are not checked |
| IntegritySet.CollectFailed | chitin/util.py:112-139 | the nested loops check exactly the target sequence, in order, with each drift appended to `failed` |
| IntegritySet.CheckIntegritySet | chitin/util.py:109-140 | `check_integrity_set`: the sorted list of drifted paths, with every corrective record in the store; on an exception, the error, with the records written before it kept |
| StatusSet.Collect | chitin/util.py:261-287 | the collection loop fills `dirs`, `files` and `hashes` as the specification function `Collected` says |
| StatusSet.OnlyDirsUnderDirs | chitin/util.py:268-278 | only directories are filed under `dirs` |
| StatusSet.MissingUnderFiles | chitin/util.py:263-266 | a path that is not on disk is tallied under `files`, never under `dirs`, with the status `get_status` gives it |
| StatusSet.UnknownFails | chitin/util.py:263-294 | a watched path that is neither on disk nor recorded gets `?`, which has no counter, so the tally raises |
| StatusSet.TallyInto | chitin/util.py:289-294 | counting one table: it fails exactly when a `?` is present; otherwise the own counts are the table's tally and the shared `codes` grow by it |
| StatusSet.TallyStatii | chitin/util.py:289-303 | tallying both tables: `codes[c] == d_codes[c] + f_codes[c]` for every code, and the counts sum to `|dirs| + |files|` |
| StatusSet.CheckStatusPathSet | chitin/util.py:253-303 | `check_status_path_set`: fails exactly when some status is `?`; returns the collected tables and hashes, each table's tally, and combined counts that add the two tables and sum to the number of entries |
| StatusSet.CountSum | chitin/util.py:289-294 | without `?`, every entry is counted under exactly one of `C`, `M`, `D` and `U` |
| Tokens.SubstituteVars | chitin/util.py:185-188 | the variable loop equals left-to-right `replace` of every bound `$NAME` |
| Tokens.SubstituteUnbound | chitin/util.py:185-188 | a word with no bound `$NAME` is left as it is |
| Tokens.SubstituteCanLeaveVariable | chitin/util.py:185-188 | substitution is one pass of `replace` per variable: `$$AA` with `A` bound to the empty string leaves `$A` |
| Tokens.Resolve | chitin/util.py:190-194 | a word ending in `;` has every `;` removed before it is resolved; any other word is resolved as it is |
| Tokens.RewrittenIsAbsolute | chitin/util.py:197-201 | a word naming an existing path is rewritten to its absolute path, with `;` re-attached when it had one, and the rewritten path resolves to itself |
| Tokens.ParseAt | chitin/util.py:185-228 | one pass of the loop: field `i` is substituted in place and, unless it is then empty, rewritten, and the lists grow by its paths |
| Tokens.ParseFields | chitin/util.py:184-228 | the loop stops at the first word that substitutes to the empty string and leaves it empty; the words before it are rewritten and the words after it are untouched |
| Tokens.ParseTokens | chitin/util.py:181-233 | `parse_tokens`: on success the caller's list is rewritten in place and the file and directory sets are those of the tokens. A word that substitutes to nothing raises `IndexError` on `field[-1]`; the earlier words then stay rewritten |
| Tokens.FilesExactly | chitin/util.py:212-213 | `files` is exactly the set of tokens that name an existing regular file |
| Tokens.DirsExactly | chitin/util.py:197-225 | `dirs` is exactly the set of paths some token has a reason for: an existing directory token, its child directories, the parent of an existing token, or the existing parent of a missing token (parents only without `ignore_parents`) |
| Tokens.RewrittenAllMeans | chitin/util.py:188-201 | index by index, each word of the rewritten list is the original word at that index, rewritten |
| Scheduler.Take | chitin/__init__.py:263-274 | taking a payload from `output_q`: a post payload is forwarded to `result_q` and its worker's entry deleted; an execution payload's worker is replaced under the same uuid; a uuid with no worker raises `KeyError` |
| Scheduler.Admit | chitin/__init__.py:278-287 | reading `cmd_q`: the falsy block sets `WAIT_TO_DONE` and spawns nothing; a command gets a worker under its uuid |
| Scheduler.Step | chitin/__init__.py:251-290 | one pass of the loop. Draining is never undone, and once draining `cmd_q` is never read. The loop returns exactly when draining with `output_q` and the process table both empty. `cmd_q` is read only below the cap and outside drain and retry. At the cap, `try_outs` is raised, and the next tick takes the output branch, which clears it |
| Scheduler.StepWithinCap | chitin/__init__.py:277-287 | no tick takes the process table beyond `MAX_PROC` |
| Scheduler.StepForwardedOnce | chitin/__init__.py:266-269 | every post payload reaches `result_q` at most once, and a forwarded uuid has no worker left |
| Scheduler.StepMatched | chitin/__init__.py:263-287 | every tick keeps the process table and the queued payloads consistent |
| Scheduler.MatchedNoKeyError | chitin/__init__.py:267-271 | while that consistency holds, looking up a payload's worker never raises |
| Scheduler.DrainStepLowersWork | chitin/__init__.py:256-269 | while draining, a tick that takes a payload lowers the work left |
| Scheduler.DrainProgress | chitin/__init__.py:256-261 | while draining with no dead worker (a command that raised before `output_q.put`, or a post pass that returned early or raised), a tick that does not return either has a payload to take or has a worker still running its command or its post pass |
| Scheduler.LeakedSlot | chitin/__init__.py:206-325 | a dead worker (its command raised before `output_q.put`, or its post pass returned or raised without putting its block back) keeps its entry in the table through every tick and every worker action, so draining never returns |
| Scheduler.Daemon.constructor | chitin/__init__.py:185-253 | an empty process table, empty queues and both flags cleared |
| Scheduler.Daemon.Submit | chitin/__init__.py:353-365 | `queue_command` appends the block to `cmd_q` |
| Scheduler.Daemon.Tick | chitin/__init__.py:254-290 | one tick of the daemon object equals `Step` of its old state |
| Scheduler.Daemon.WorkerDone | chitin/__init__.py:294-325 | a finished command puts its payload on `output_q`; one that raised before `output_q.put` (in the integrity check, say) puts nothing and its worker is dead |
| Scheduler.Daemon.PostDone | chitin/__init__.py:247-248 | a finished post pass puts its block back on `output_q`, or, when it returned early or raised, puts nothing |
| PostProcess.NewPaths | chitin/__init__.py:217-218 | the new paths are the token paths not already watched, and together with the watched ones they cover both sets |
| PostProcess.RewriteCommand | chitin/__init__.py:215-219 | `cmd_str.split(" ")` rewritten by `parse_tokens`, or its `IndexError` |
| PostProcess.KeptMeans | chitin/__init__.py:235-241 | a write is made exactly for a changed entry, or an unchanged one whose path the command names, and it is a usage exactly when the entry is unchanged |
| PostProcess.UsageFilter | chitin/__init__.py:235-241 | the write loop yields exactly the writes `Kept` selects, in order |
| PostProcess.WrittenExactly | chitin/__init__.py:231-241 | over the collected tables and in any (enumerating) iteration order: every non-`U` status is written, and a `U` status exactly when its path is among the rewritten fields |
| PostProcess.UnchangedTally | chitin/__init__.py:232 | `codes["U"] == sum(codes.values())` exactly when every status is `U` |
| PostProcess.StatusWrites | chitin/__init__.py:231-241 | the status pass fails exactly when a `?` is collected, and otherwise writes as `PostWrites` says |
| PostProcess.HandlePost | chitin/__init__.py:189-248 | `handle_post`: with `return_code > 0` nothing happens. It raises exactly when a word substitutes to nothing or a status is `?`. Otherwise it posts the rewritten command, the new paths and the filtered writes |
| Queries.How | chitin/__init__.py:89-96 | `how`: the first fact recording the hash for the absolute path, or none when no fact does |
| Queries.HowStable | chitin/__init__.py:93 | once found, the answer of `how` stays the same however the append-only store grows |
| Queries.HistoryPartition | chitin/__init__.py:59-62 | `history` splits an item's facts into "actions" (type other than `U`) and "usage" (type `U`): disjoint, and together covering all its facts |
| Queries.SelectIncreasing | chitin/__init__.py:59-62 | each listing is in store order |
| Queries.HistoryUnrecorded | chitin/__init__.py:50-56 | without a record: "No such path." exactly when the path is missing, and "No history." exactly when it is a file |
| Queries.LatestFrom | chitin/__init__.py:135 | the row the grouping keeps for a path: its latest fact among those whose event is no later than the directory's |
| Queries.HashdirRows | chitin/__init__.py:121-140 | `hashdir` prints a row exactly for a recorded path under the directory whose latest fact up to the directory record's event has a digest other than the `'0'` sentinel |
| Queries.HashdirSorted | chitin/__init__.py:135 | the rows are in path order |
| Queries.ExpandEvent | chitin/__init__.py:160-171 | the inner loop of `needed` for one popped event equals `Expand`, and keeps `crit_paths` equal to `Critical` of the recorded facts |
| Queries.ExpandJustified | chitin/__init__.py:161-166 | a fact is recorded only if it is not a usage, not about a directory and on a path already critical |
| Queries.ExpandRecords | chitin/__init__.py:164-166 | every such fact of the event is recorded |
| Queries.CriticalGrows | chitin/__init__.py:166 | `crit_paths` only grows |
| Queries.ExpandFresh | chitin/__init__.py:156-159 | expanding an event whose uuid is new records no fact twice |
| Queries.ExpandPushes | chitin/__init__.py:160-171 | the inner loop pushes onto `events` the producing event of every non-directory fact it meets |
| Queries.ExpandFoundStackFree | chitin/__init__.py:160-171 | what the inner loop appends to `needed_ies` does not depend on the `events` stack |
| Queries.Pop | chitin/__init__.py:155-171 | one pass of the outer loop: an event whose uuid is in `uuids` is dropped from the stack; otherwise it is expanded and its uuid added. The facts recorded stay justified and distinct, the walk stays on course for `Drain`, and every producer named so far is expanded or still on the stack. Each pass adds a uuid or shrinks the stack |
| Queries.Needed | chitin/__init__.py:142-174 | `needed`: "Not found..." exactly when `how` finds nothing. Otherwise, the printed facts are `Drain` of the walk from the queried fact's event, reversed. They are also the fold of `Expand` over the expanded events, reversed. The first event expanded is the queried fact's event, no uuid is expanded twice, and every producing event a fact of an expanded event names has its uuid expanded. The printed facts are each justified, distinct, and include the queried fact when it is itself a recordable action |
| Script.ScriptLinesSound | chitin/__init__.py:434-440 | every kept line is the stripped form of a file line that passes `check_line`, and is at least two characters long |
| Script.ScriptLinesComplete | chitin/__init__.py:434-440 | every file line that passes `check_line` is kept, stripped |
| Script.ParseIntNatStr | chitin/__init__.py:464 | `int(str(n)) == n` for the Python `int` model of the `CHITIN_INPUT` index |
| Script.SplitBlocks | chitin/__init__.py:449-474 | the splitting loop equals the right fold `SplitLines`, and stops at the first exception |
| Script.ErrSticks | chitin/__init__.py:462-468 | an `IndexError` or `ValueError` from a directive line ends the scan |
| Script.SplitKeepsCommands | chitin/__init__.py:449-474 | the blocks, followed by the still-open block, hold exactly the non-directive lines in order; every block is non-empty, and outside a block nothing is pending |
| Script.LoneLines | chitin/__init__.py:470-474 | a script without directives runs each line as a command of its own |
| Script.OpenBlock | chitin/__init__.py:450-472 | inside a block, command lines accumulate in the open block |
| Script.ClosedBlock | chitin/__init__.py:450-460 | the lines between a start and an end directive become one block, and a block still open at the end of the script is dropped |
| Script.AscendingTen | chitin/__init__.py:480-481 | as written, with ten or more tokens, `$10` becomes the first token followed by `0` |
| Script.AscendingPicks | chitin/__init__.py:480-481 | as written, each of `$1` ... `$9` becomes its own token, when that token has no `$` |
| Script.AscendingNoDollar | chitin/__init__.py:480-481 | as written, a command with no `$` is left as it is |
| Script.AscendingRescans | chitin/__init__.py:480-481 | as written, a token holding a later placeholder is substituted again: `$1` with tokens `$2`, `x` becomes `x`, where highest-first replacement gives `$2` |
| Script.SubstPicks | chitin/__init__.py:480-481 | highest-first order (the correction in Findings, not used by the rest of the model): every `$k` up to the number of tokens stands for the `k`-th token, when no token contains `$` |
| Script.SubstNoDollar | chitin/__init__.py:480-481 | highest-first order: a command with no `$` is left as it is |
| Script.PlaceholderApart | chitin/__init__.py:481 | a higher placeholder never occurs inside a lower one, so replacing the highest first is sound |
| Script.FirstMissing | chitin/__init__.py:482 | the least token index whose `i+1` has no `CHITIN_INPUT` name: the `KeyError` `input_map[i+1]` raises |
| Script.AssignedMeans | chitin/__init__.py:482 | each token is recorded under its input name, unless a later token has the same name |
| Script.SubstituteBlock | chitin/__init__.py:479-483 | one block: `KeyError(i+1)` exactly when some input is unnamed, for the least such `i`; otherwise the command with `$1`, `$2`, ... replaced in ascending order, as written, and the metadata with each token under its name |
| Script.FixBlocks | chitin/__init__.py:476-485 | the block loop equals the specification function `Fixed`: no blocks gives just the path and the `CHITIN_META` pairs; otherwise each block joined with `; ` and substituted in ascending order, as written, or the first `KeyError` |
| Script.ParsedMetaNames | chitin/__init__.py:482-485 | a token ends up in `meta["script"]` under its input name, unless a later token or a `CHITIN_META` line sets that name |
| FrontEnd.RingLatest | chitin/__init__.py:492-498 | each of the last ten drained blocks sits in the slot the cursor was at when it was stored |
| FrontEnd.RingUntouched | chitin/__init__.py:492-498 | a slot the drain did not reach keeps its old block |
| FrontEnd.CursorMoved | chitin/__init__.py:491-499 | the cursor returns to where it started exactly when a multiple of ten blocks was drained |
| FrontEnd.PrintOrderMeans | chitin/__init__.py:503 | the listing walks back from the newest slot, wrapping around, and visits every slot except the cursor's, each once |
| FrontEnd.OccupiedMeans | chitin/__init__.py:504-506 | a slot is listed exactly when it is visited and holds a block |
| FrontEnd.NewestFirst | chitin/__init__.py:490-506 | after a drain, the `k`-th listed slot holds the `k`-th block counted back from the newest |
| FrontEnd.ClassifyMeans | chitin/__init__.py:373-394 | a line is special exactly when it starts with `@` or `%`, and its kind is then decided by the first word without that character |
| FrontEnd.StdoutAt | chitin/__init__.py:508-510 | `self.results[pos]` succeeds exactly for `-len(results) <= pos < len(results)`: Python counts negative positions from the end |
| FrontEnd.CommandLineSplits | chitin/__init__.py:405-418 | when no rewritten word holds a space, splitting the queued command line gives the rewritten words back |
| FrontEnd.WatchDirsMeans | chitin/__init__.py:411-414 | `.` is watched unless `ignore_dot` is set, and every directory `parse_tokens` found is watched in either case |
| FrontEnd.Tokenize | chitin/__init__.py:411-418 | `parse_tokens` on a fresh list of the words: it succeeds exactly when no word substitutes to nothing, and yields the rewritten words and the watch sets |
| FrontEnd.Chitin.constructor | chitin/__init__.py:329-344 | all flags cleared, no variables or metadata, empty queues, cursor 0 and ten empty result slots |
| FrontEnd.Chitin.MoveResultQ | chitin/__init__.py:490-499 | `move_result_q` empties `result_q` into the ring from the cursor on, advances the cursor modulo 10, and returns whether it moved |
| FrontEnd.ListOccupied | chitin/__init__.py:503-506 | the listing loop yields exactly `Occupied` of the visited slots, in visiting order |
| FrontEnd.Chitin.PrintResults | chitin/__init__.py:501-506 | `print_results` drains, then, only when the cursor moved or `force` is set, lists the occupied slots newest first |
| FrontEnd.Chitin.ParseScript | chitin/__init__.py:433-488 | `parse_script` returns the commands `ParsedScript` gives (substituted in ascending order, as written) and sets `meta["script"]`; on an exception, `meta` is unchanged |
| FrontEnd.Chitin.RunScriptCommand | chitin/__init__.py:376-378 | `%script path tokens...`: `IndexError` without a path, `IOError` for an unknown path, else `parse_script` |
| FrontEnd.Chitin.AttemptSpecial | chitin/__init__.py:367-400 | `attempt_special`: an empty line raises `IndexError`, and a plain line is not skipped. `%q` and `%i` flip exactly their own flag. `%j` drains and lists, and only `%j` touches the ring. `%o` shows a slot or raises. `%script` returns the script's commands not skipped, and only `%script` touches `meta`. The queries and unknown names are skipped |
| FrontEnd.Chitin.HandleCommand | chitin/__init__.py:407-430 | `handle_command`: fails exactly when a word substitutes to nothing. With `dry` it returns the rewritten command line and queues nothing; otherwise it queues one block carrying the watch sets (`.` unless `ignore_dot`) and the flags |

## Left out

- The `record` ORM and its SQL are not part of this model. The store is four append-only sequences, and each `[0]` lookup is the first match in insertion order. An event's timestamp is its index in the store.
- `add_event_group` and `super_handle` create ORM rows for an event group. The model takes the group id as a parameter.
- `util.write_status` is not part of this model. `handle_post` yields the list of writes it would make.
- The `cmd` analyzers (`can_parse`, `attempt_parse`, `attempt_parse_type`, `attempt_integrity_type`) are not part of this model:
  - `attempt_parse_type` is a parameter;
  - the metadata parsed from a command's output is not modelled;
  - the `is_token` warnings that `check_integrity` prints from `attempt_integrity_type` are output only.
- MD5 and `hexdigest` are an abstract function from bytes to bytes. A hasher is the bytes it has absorbed.
- The file system is a finite map from paths to files and directories. Symbolic links, permissions and concurrent changes are not modelled.
- `multiprocessing` (`Process`, `Queue`, `terminate`, `sleep`) is not modelled as concurrency. The daemon is a sequential state machine, and a worker finishing is an environment action between ticks.
- `run_command` is not modelled; its integrity check is `check_integrity_set`, which is modelled. The left-out parts:
  - the subprocess;
  - the clocks and the `wall` metadatum;
  - the environment it builds at chitin/__init__.py:312, which evaluates to `None`.
- Printing, the prompt, `shell()` and `make_web` are output and UI. The `%j` listing is returned as the listed slot numbers, and `%o` returns the block it would print.
- The experiment functions (`register_experiment`, `register_run`, `archive_experiment`, `generate_experiment_manifest`, `copy_experiment_archive`, `watermark_experiment_image`) are file, archive, SSH and image I/O.
- `hashdir` takes `LIKE abspath%` as a string prefix. `group_by(Item.path)` keeps the latest fact up to the directory record's event.
- The Python `int()` model accepts an optional sign and ASCII digits, with surrounding whitespace. It does not accept underscores or non-ASCII digits.
- A Python set or dict iterates in an order the model takes as a parameter. The model requires only that the order holds exactly the elements; it may repeat one, which Python's iteration does not.
- `ignore_dot` and `ignore_parents` are never set to true by the shown code. The model keeps them as fields.
- The query specials `%history`, `%how`, `%needed` and `%hashdir` only skip the line in `AttemptSpecial`; their effect is modelled by the `Queries` module. A call with the wrong number of arguments raises `TypeError`, which `attempt_special` catches and prints (chitin/__init__.py:395-399); the line is skipped either way, which is what the model returns.
- queue_command's `tokens` entry is modelled through the rewritten fields and watch sets it carries.
- Script files are passed as their lines, keyed by path. Reading a file and the `IOError` for a missing one are modelled through that map.
- Integrity.StoredDigest: the `ItemEvent` constructor is not part of this model, and chitin/util.py:95 passes it no digest. The model assumes it stores the path's current digest, or the sentinel `0` for a path with none. `Integrity.CheckSettles` and the `0` rows that `Queries.HashdirRows` leaves out rest on that assumption.
- Integrity.GetStatus: an Item with no ItemEvent makes `get_last_digest` raise `IndexError` (chitin/util.py:43, 51). The model does not raise; it treats such an item as unrecorded and returns `C` or `?`. A `Store.Valid` store, which `add_file_record` keeps, has no such item, and `GetStatusTable` assumes one.
- Integrity.Check: it too treats an Item with no ItemEvent as unrecorded. For an existing path it records `CREATED by (?)`, where chitin/util.py:162 raises `IndexError`. For a missing path it records nothing, where chitin/util.py:169-171 appends `DELETED by (?)`. A `Store.Valid` store has no such item.

## Findings

The model of `parse_script` keeps the order as written (`Script.AscendingSubst`); `Script.Subst` is the highest-first order the row below proposes, with its properties proved beside it.

| source | as written | input that shows it | evidently intended | confidence | as-written member | corrected member |
|---|---|---|---|---|---|---|
| chitin/__init__.py:480-481 | `$1`, `$2`, ... are replaced in ascending order, so `$1` also matches the start of `$10`, `$11`, ... | a script block `echo $10` run with ten tokens `a`..`j` becomes `echo a0`, not `echo j`; with tokens `$2`, `x` the block `$1` becomes `x` (`Script.AscendingRescans`) | `$k` stands for the `k`-th token for every `k` (replace the highest-numbered placeholder first). Against this: the welcome text calls `%script` a bash script runner, and bash itself reads `$10` as `${1}0`, so `Script.AscendingTen` agrees with bash. Only the rescan of inserted tokens (`Script.AscendingRescans`) clearly departs from bash | low, not executed | Script.AscendingTen | Script.SubstPicks |

/** The provenance queries of the shell: `%history`, `%how`, `%hashdir`
    and `%needed`. Each reads the store and changes nothing; what they
    print is given here as the facts (ItemEvents) they select. */
module Queries {
  import opened Base
  import opened Strings
  import opened Paths
  import opened FileSystem
  import opened Store
  import Ordering

  /** Fact `k` resolves and is about the item at `path`. */
  predicate FactAt(db: Db, k: nat, path: Path) {
    k < |db.facts| && db.facts[k].item < |db.items| && db.items[db.facts[k].item].path == path
  }

  /** `ie.item.path` for fact `k` (the empty path for a fact that does not resolve). */
  function PathOf(db: Db, k: nat): Path {
    if k < |db.facts| && db.facts[k].item < |db.items| then db.items[db.facts[k].item].path else ""
  }

  predicate IsUsage(f: Fact) {
    f.result == Some(Unchanged)
  }

  /** A fact `ItemEvent.query.join(Item).filter(hash == hash, path == path)`
      selects; with `producer`, also `result_type != 'U'`. */
  predicate Selects(db: Db, k: nat, path: Path, hash: Bytes, producer: bool) {
    FactAt(db, k, path) && db.facts[k].digest == hash && (producer ==> !IsUsage(db.facts[k]))
  }

  /** `[0]` of that query: the first such fact in append order. */
  function FirstFrom(db: Db, path: Path, hash: Bytes, producer: bool, i: nat): (r: Option<nat>)
    requires i <= |db.facts|
    ensures r.Some? ==> i <= r.value && Selects(db, r.value, path, hash, producer)
    ensures r.Some? ==> forall j :: i <= j < r.value ==> !Selects(db, j, path, hash, producer)
    ensures r.None? ==> forall j :: i <= j < |db.facts| ==> !Selects(db, j, path, hash, producer)
    decreases |db.facts| - i
  {
    if i == |db.facts| then None
    else if Selects(db, i, path, hash, producer) then Some(i)
    else FirstFrom(db, path, hash, producer, i + 1)
  }

  /** `how(path, hash)`: the first fact recording `hash` for the path, or
      "Not found...". */
  function How(db: Db, cwd: Path, path: Path, hash: Bytes): (r: Option<nat>)
    ensures r.Some? ==> Selects(db, r.value, Abspath(cwd, path), hash, false)
    ensures r.Some? ==> forall j :: 0 <= j < r.value ==> !Selects(db, j, Abspath(cwd, path), hash, false)
    ensures r.None? ==> forall j :: 0 <= j < |db.facts| ==> !Selects(db, j, Abspath(cwd, path), hash, false)
  {
    FirstFrom(db, Abspath(cwd, path), hash, false, 0)
  }

  /** An answer of `how` stays the answer however the log grows. */
  lemma HowStable(db: Db, db': Db, cwd: Path, path: Path, hash: Bytes)
    requires Valid(db) && Extends(db, db') && How(db, cwd, path, hash).Some?
    ensures How(db', cwd, path, hash) == How(db, cwd, path, hash)
  {
    var k := How(db, cwd, path, hash).value;
    var a := Abspath(cwd, path);
    SelectsKept(db, db', k, a, hash);
    forall j | 0 <= j < k ensures !Selects(db', j, a, hash, false) {
      assert db.facts[j].item < |db.items|;
      SelectsKept(db, db', j, a, hash);
    }
    var r := How(db', cwd, path, hash);
    assert k < |db'.facts| && Selects(db', k, a, hash, false);
    assert r.Some?;
    assert r.value >= k;
    assert r.value == k;
  }

  /** A fact that resolves selects the same way in a longer log. */
  lemma SelectsKept(db: Db, db': Db, j: nat, a: Path, hash: Bytes)
    requires Extends(db, db') && j < |db.facts| && db.facts[j].item < |db.items|
    ensures Selects(db', j, a, hash, false) == Selects(db, j, a, hash, false)
  {
    assert db'.facts[j] == db.facts[j];
    assert db'.items[db.facts[j].item] == db.items[db.facts[j].item];
  }

  // ---- history ----

  /** What `history(file_path)` shows. */
  datatype HistoryView =
    | NoSuchPath
    | NoHistory
    | NothingShown
    | Listing(path: Path, actions: seq<nat>, usage: seq<nat>)

  /** The facts about `item` among the first `n`, in order: the usages
      (`result_type == 'U'`) or the actions (everything else). */
  function Select(db: Db, item: nat, usage: bool, n: nat): seq<nat>
    requires n <= |db.facts|
  {
    if n == 0 then []
    else
      Select(db, item, usage, n - 1)
      + (if db.facts[n - 1].item == item && IsUsage(db.facts[n - 1]) == usage then [n - 1] else [])
  }

  lemma {:induction false} SelectMeans(db: Db, item: nat, usage: bool, n: nat, k: nat)
    requires n <= |db.facts|
    ensures k in Select(db, item, usage, n) <==> k < n && db.facts[k].item == item && IsUsage(db.facts[k]) == usage
  {
    if n > 0 {
      SelectMeans(db, item, usage, n - 1, k);
    }
  }

  /** Each listing is in log order. */
  lemma {:induction false} SelectIncreasing(db: Db, item: nat, usage: bool, n: nat)
    requires n <= |db.facts|
    ensures Increasing(Select(db, item, usage, n))
  {
    if n > 0 {
      SelectIncreasing(db, item, usage, n - 1);
      var s := Select(db, item, usage, n - 1);
      forall i | 0 <= i < |s| ensures s[i] < n - 1 {
        SelectMeans(db, item, usage, n - 1, s[i]);
      }
      assert Increasing(s);
      var s' := Select(db, item, usage, n);
      assert s' == s || s' == s + [n - 1];
    }
  }

  /** `history(file_path)` */
  function History(fs: FS, db: Db, cwd: Path, path: Path): HistoryView {
    var a := Abspath(cwd, path);
    match FindItem(db, a)
    case None => if !Exists(fs, a) then NoSuchPath else if IsFile(fs, a) then NoHistory else NothingShown
    case Some(i) => Listing(db.items[i].path, Select(db, i, false, |db.facts|), Select(db, i, true, |db.facts|))
  }

  /** The two listings split the item's facts: every fact is in exactly one
      of them, "actions" holding the non-`U` ones and "usage" the `U` ones. */
  lemma HistoryPartition(fs: FS, db: Db, cwd: Path, path: Path, k: nat)
    requires FindItem(db, Abspath(cwd, path)).Some?
    ensures var i := FindItem(db, Abspath(cwd, path)).value;
            var h := History(fs, db, cwd, path);
            && h.Listing?
            && (k in h.actions <==> k < |db.facts| && db.facts[k].item == i && !IsUsage(db.facts[k]))
            && (k in h.usage <==> k < |db.facts| && db.facts[k].item == i && IsUsage(db.facts[k]))
            && !(k in h.actions && k in h.usage)
            && (k in h.actions || k in h.usage <==> k < |db.facts| && db.facts[k].item == i)
  {
    var i := FindItem(db, Abspath(cwd, path)).value;
    SelectMeans(db, i, false, |db.facts|, k);
    SelectMeans(db, i, true, |db.facts|, k);
  }

  /** Without a record, whether anything is printed depends only on the disk. */
  lemma HistoryUnrecorded(fs: FS, db: Db, cwd: Path, path: Path)
    requires FindItem(db, Abspath(cwd, path)).None?
    ensures History(fs, db, cwd, path) == NoSuchPath <==> !Exists(fs, Abspath(cwd, path))
    ensures History(fs, db, cwd, path) == NoHistory <==> IsFile(fs, Abspath(cwd, path))
  {
  }

  // ---- hashdir ----

  /** What `hashdir(path, hash)` shows. */
  datatype HashdirView =
    | NotADirectory
    | NotEncountered
    | Rows(rows: seq<(Bytes, Path)>)

  /** The row the `group_by(Item.path)` keeps for a path: its latest fact
      among the first `n` whose event is no later than `t`. */
  function LatestFrom(db: Db, path: Path, t: nat, n: nat): (r: Option<nat>)
    requires n <= |db.facts|
    ensures r.Some? ==> r.value < n && FactAt(db, r.value, path) && db.facts[r.value].event <= t
    ensures r.Some? ==> forall j :: r.value < j < n ==> !(FactAt(db, j, path) && db.facts[j].event <= t)
    ensures r.None? ==> forall j :: 0 <= j < n ==> !(FactAt(db, j, path) && db.facts[j].event <= t)
  {
    if n == 0 then None
    else if FactAt(db, n - 1, path) && db.facts[n - 1].event <= t then Some(n - 1)
    else LatestFrom(db, path, t, n - 1)
  }

  function LatestAt(db: Db, path: Path, t: nat): Option<nat> {
    LatestFrom(db, path, t, |db.facts|)
  }

  /** The paths of the first `n` items that `Item.path.like(prefix + '%')`
      and the timestamp filter keep. */
  function Candidates(db: Db, prefix: Path, t: nat, n: nat): seq<Path>
    requires n <= |db.items|
  {
    if n == 0 then []
    else
      var p := db.items[n - 1].path;
      Candidates(db, prefix, t, n - 1) + (if StartsWith(p, prefix) && LatestAt(db, p, t).Some? then [p] else [])
  }

  lemma {:induction false} CandidatesMeans(db: Db, prefix: Path, t: nat, n: nat, p: Path)
    requires n <= |db.items|
    ensures p in Candidates(db, prefix, t, n) <==>
            (exists i :: 0 <= i < n && db.items[i].path == p) && StartsWith(p, prefix) && LatestAt(db, p, t).Some?
  {
    if n > 0 {
      CandidatesMeans(db, prefix, t, n - 1, p);
    }
  }

  /** `if ie.hash != '0': print ...` for the row kept for `p`. */
  function RowOf(db: Db, t: nat): Path -> seq<(Bytes, Path)> {
    p => match LatestAt(db, p, t)
         case None => []
         case Some(k) => if db.facts[k].digest != Sentinel then [(db.facts[k].digest, p)] else []
  }

  /** `hashdir(path, hash)`. The timestamp of an event is its place in the log. */
  function Hashdir(fs: FS, db: Db, cwd: Path, path: Path, hash: Bytes): HashdirView {
    var a := Abspath(cwd, path);
    if !Exists(fs, a) || !IsDir(fs, a) then NotADirectory
    else match How(db, cwd, path, hash)
      case None => NotEncountered
      case Some(k) =>
        var t := db.facts[k].event;
        Rows(ConcatMap(RowOf(db, t), Ordering.Sort(Candidates(db, a, t, |db.items|))))
  }

  /** `row` is what `hashdir` prints for its path at time `t`. */
  predicate Shown(db: Db, t: nat, row: (Bytes, Path)) {
    && LatestAt(db, row.1, t).Some?
    && db.facts[LatestAt(db, row.1, t).value].digest == row.0
    && row.0 != Sentinel
  }

  lemma RowOfMeans(db: Db, t: nat, p: Path, row: (Bytes, Path))
    ensures row in RowOf(db, t)(p) <==> row.1 == p && Shown(db, t, row)
  {
  }

  lemma RowsMember(db: Db, t: nat, ps: seq<Path>, row: (Bytes, Path))
    ensures row in ConcatMap(RowOf(db, t), ps) <==> row.1 in ps && Shown(db, t, row)
  {
    ConcatMapMember(RowOf(db, t), ps, row);
    if row in ConcatMap(RowOf(db, t), ps) {
      var k :| 0 <= k < |ps| && row in RowOf(db, t)(ps[k]);
      RowOfMeans(db, t, ps[k], row);
    }
    if row.1 in ps && Shown(db, t, row) {
      var k :| 0 <= k < |ps| && ps[k] == row.1;
      RowOfMeans(db, t, ps[k], row);
    }
  }

  /** Each row printed is a recorded path under the directory's path, with
      the digest of its latest fact no later than the directory's event, and
      that digest is not the `'0'` sentinel; every such path is printed. */
  lemma HashdirRows(fs: FS, db: Db, cwd: Path, path: Path, hash: Bytes, row: (Bytes, Path))
    requires Hashdir(fs, db, cwd, path, hash).Rows?
    ensures var t := db.facts[How(db, cwd, path, hash).value].event;
            row in Hashdir(fs, db, cwd, path, hash).rows <==>
              && (exists i :: 0 <= i < |db.items| && db.items[i].path == row.1)
              && StartsWith(row.1, Abspath(cwd, path))
              && Shown(db, t, row)
  {
    var a := Abspath(cwd, path);
    var t := db.facts[How(db, cwd, path, hash).value].event;
    var cs := Candidates(db, a, t, |db.items|);
    var sorted := Ordering.Sort(cs);
    assert Hashdir(fs, db, cwd, path, hash).rows == ConcatMap(RowOf(db, t), sorted);
    RowsMember(db, t, sorted, row);
    CandidatesMeans(db, a, t, |db.items|, row.1);
    assert row.1 in sorted <==> row.1 in cs by {
      assert row.1 in sorted <==> row.1 in multiset(sorted);
      assert row.1 in cs <==> row.1 in multiset(cs);
    }
  }

  predicate RowsSorted(rows: seq<(Bytes, Path)>) {
    forall i, j :: 0 <= i < j < |rows| ==> Ordering.Below(rows[i].1, rows[j].1)
  }

  lemma {:induction false} RowsOfSorted(db: Db, t: nat, ps: seq<Path>)
    requires Ordering.Sorted(ps)
    ensures RowsSorted(ConcatMap(RowOf(db, t), ps))
    ensures forall r :: r in ConcatMap(RowOf(db, t), ps) ==> r.1 in ps
    decreases |ps|
  {
    if ps != [] {
      var n := |ps| - 1;
      var init := ps[..n];
      assert Ordering.Sorted(init);
      RowsOfSorted(db, t, init);
      var rows := ConcatMap(RowOf(db, t), ps);
      var before := ConcatMap(RowOf(db, t), init);
      assert rows == before + RowOf(db, t)(ps[n]);
      forall i, j | 0 <= i < j < |rows| ensures Ordering.Below(rows[i].1, rows[j].1) {
        if j >= |before| {
          if i >= |before| {
            assert false;
          }
          assert rows[j].1 == ps[n];
          {
            assert rows[i] in before;
            var m :| 0 <= m < n && init[m] == rows[i].1;
          }
        }
      }
    }
  }

  /** The rows are in path order (`order_by(Item.path)`). */
  lemma HashdirSorted(fs: FS, db: Db, cwd: Path, path: Path, hash: Bytes)
    requires Hashdir(fs, db, cwd, path, hash).Rows?
    ensures RowsSorted(Hashdir(fs, db, cwd, path, hash).rows)
  {
    var a := Abspath(cwd, path);
    var t := db.facts[How(db, cwd, path, hash).value].event;
    RowsOfSorted(db, t, Ordering.Sort(Candidates(db, a, t, |db.items|)));
  }

  // ---- needed ----

  /** The facts of event `e` among the first `n`, in order (`event.items.all()`). */
  function FactsOfFrom(db: Db, e: nat, n: nat): seq<nat>
    requires n <= |db.facts|
  {
    if n == 0 then [] else FactsOfFrom(db, e, n - 1) + (if db.facts[n - 1].event == e then [n - 1] else [])
  }

  function FactsOf(db: Db, e: nat): seq<nat> {
    FactsOfFrom(db, e, |db.facts|)
  }

  /** The facts of event `e` among the first `n`, in increasing order, and
      all of them. */
  lemma FactsOfFromMeans(db: Db, e: nat, n: nat)
    requires n <= |db.facts|
    ensures forall i :: 0 <= i < |FactsOfFrom(db, e, n)| ==>
              FactsOfFrom(db, e, n)[i] < n && db.facts[FactsOfFrom(db, e, n)[i]].event == e
    ensures forall i, j :: 0 <= i < j < |FactsOfFrom(db, e, n)| ==> FactsOfFrom(db, e, n)[i] < FactsOfFrom(db, e, n)[j]
    ensures forall k :: 0 <= k < n && db.facts[k].event == e ==> k in FactsOfFrom(db, e, n)
  {
    FactsOfFromSound(db, e, n);
    FactsOfFromIncreasing(db, e, n);
    FactsOfFromComplete(db, e, n);
  }

  lemma {:induction false} FactsOfFromSound(db: Db, e: nat, n: nat)
    requires n <= |db.facts|
    ensures forall i :: 0 <= i < |FactsOfFrom(db, e, n)| ==>
              FactsOfFrom(db, e, n)[i] < n && db.facts[FactsOfFrom(db, e, n)[i]].event == e
  {
    if n > 0 {
      FactsOfFromSound(db, e, n - 1);
      var p := FactsOfFrom(db, e, n - 1);
      assert FactsOfFrom(db, e, n) == p + (if db.facts[n - 1].event == e then [n - 1] else []);
    }
  }

  lemma {:induction false} FactsOfFromIncreasing(db: Db, e: nat, n: nat)
    requires n <= |db.facts|
    ensures forall i :: 0 <= i < |FactsOfFrom(db, e, n)| ==> FactsOfFrom(db, e, n)[i] < n
    ensures forall i, j :: 0 <= i < j < |FactsOfFrom(db, e, n)| ==> FactsOfFrom(db, e, n)[i] < FactsOfFrom(db, e, n)[j]
  {
    if n > 0 {
      FactsOfFromIncreasing(db, e, n - 1);
      var p := FactsOfFrom(db, e, n - 1);
      var s := FactsOfFrom(db, e, n);
      assert s == p + (if db.facts[n - 1].event == e then [n - 1] else []);
      forall i, j | 0 <= i < j < |s|
        ensures s[i] < s[j]
      {
        assert s[i] == p[i];
        if j < |p| {
          assert s[j] == p[j];
        }
      }
    }
  }

  lemma {:induction false} FactsOfFromComplete(db: Db, e: nat, n: nat)
    requires n <= |db.facts|
    ensures forall k :: 0 <= k < n && db.facts[k].event == e ==> k in FactsOfFrom(db, e, n)
  {
    if n > 0 {
      FactsOfFromComplete(db, e, n - 1);
      var p := FactsOfFrom(db, e, n - 1);
      var s := FactsOfFrom(db, e, n);
      assert forall k :: k in p ==> k in s;
    }
  }

  /** The paths of the facts `ks`. */
  function PathsOf(db: Db, ks: seq<nat>): seq<Path> {
    if ks == [] then [] else PathsOf(db, ks[..|ks| - 1]) + [PathOf(db, ks[|ks| - 1])]
  }

  lemma {:induction false} PathsOfMember(db: Db, ks: seq<nat>, k: nat)
    requires k in ks
    ensures PathOf(db, k) in PathsOf(db, ks)
  {
    var n := |ks| - 1;
    if ks[n] != k {
      assert k in ks[..n];
      PathsOfMember(db, ks[..n], k);
    }
  }

  /** `[i.item.path for i in event.items.all()]` */
  function EventPaths(db: Db, e: nat): seq<Path> {
    PathsOf(db, FactsOf(db, e))
  }

  /** `crit_paths` once the facts `found` have been recorded, each adding
      the paths of its own event. */
  function Critical(db: Db, start: nat, found: seq<nat>): seq<Path> {
    if found == [] then EventPaths(db, start)
    else
      var k := found[|found| - 1];
      Critical(db, start, found[..|found| - 1]) + (if k < |db.facts| then EventPaths(db, db.facts[k].event) else [])
  }

  /** Fact `k` may be recorded: it is not a usage and not about a directory. */
  predicate Recordable(fs: FS, db: Db, k: nat) {
    k < |db.facts| && !IsUsage(db.facts[k]) && !IsDir(fs, PathOf(db, k))
  }

  /** Each fact in `found` was recordable, and its path was critical when
      it was recorded. */
  predicate Justified(fs: FS, db: Db, start: nat, found: seq<nat>) {
    |found| == 0 ||
    var n := |found| - 1;
    && Justified(fs, db, start, found[..n])
    && Recordable(fs, db, found[n])
    && PathOf(db, found[n]) in Critical(db, start, found[..n])
  }

  /** Every event index a fact points at. */
  function EventsOf(db: Db): set<nat> {
    set k | 0 <= k < |db.facts| :: db.facts[k].event
  }

  /** `events.append(...[0].event)` for fact `k`: the event of the first
      non-usage fact with the same path and hash, if there is one. */
  function Producer(db: Db, k: nat): Option<nat>
    requires k < |db.facts|
  {
    match FirstFrom(db, PathOf(db, k), db.facts[k].digest, true, 0)
    case None => None
    case Some(j) => Some(db.facts[j].event)
  }

  lemma ProducerIsEvent(db: Db, k: nat)
    requires k < |db.facts| && Producer(db, k).Some?
    ensures Producer(db, k).value in EventsOf(db)
  {
    var j := FirstFrom(db, PathOf(db, k), db.facts[k].digest, true, 0).value;
    assert db.facts[j].event in EventsOf(db);
  }

  /** The state of `needed`'s walk: `needed_ies` (as the facts recorded)
      and `events` (the stack of event indices). `crit_paths` is
      `Critical` of the facts recorded. */
  datatype Walk = Walk(found: seq<nat>, stack: seq<nat>)

  /** One pass of the inner loop, for fact `k` of the popped event. */
  function Visit(fs: FS, db: Db, start: nat, w: Walk, k: nat): Walk {
    if k >= |db.facts| || IsDir(fs, PathOf(db, k)) then w
    else
      var w' := if !IsUsage(db.facts[k]) && PathOf(db, k) in Critical(db, start, w.found)
                then w.(found := w.found + [k])
                else w;
      match Producer(db, k)
      case None => w'
      case Some(ev) => w'.(stack := w'.stack + [ev])
  }

  /** The inner loop over the facts `ks`. */
  function Expand(fs: FS, db: Db, start: nat, w: Walk, ks: seq<nat>): Walk {
    if ks == [] then w else Visit(fs, db, start, Expand(fs, db, start, w, ks[..|ks| - 1]), ks[|ks| - 1])
  }

  predicate Increasing(s: seq<nat>) {
    forall i, j :: 0 <= i < j < |s| ==> s[i] < s[j]
  }

  predicate Distinct(s: seq<nat>) {
    forall i, j :: 0 <= i < j < |s| ==> s[i] != s[j]
  }

  /** Recording one more critical, recordable fact. */
  lemma Record(fs: FS, db: Db, start: nat, found: seq<nat>, k: nat)
    requires Justified(fs, db, start, found)
    requires Recordable(fs, db, k) && PathOf(db, k) in Critical(db, start, found)
    ensures Justified(fs, db, start, found + [k])
  {
    assert (found + [k])[..|found|] == found;
  }

  lemma CriticalSnoc(db: Db, start: nat, found: seq<nat>, k: nat)
    requires k < |db.facts|
    ensures Critical(db, start, found + [k]) == Critical(db, start, found) + EventPaths(db, db.facts[k].event)
  {
    assert (found + [k])[..|found|] == found;
  }

  /** `crit_paths` only grows as facts are recorded. */
  lemma {:induction false} CriticalGrows(db: Db, start: nat, more: seq<nat>, m: nat)
    requires m <= |more|
    ensures Critical(db, start, more[..m]) <= Critical(db, start, more)
    decreases |more|
  {
    if m == |more| {
      assert more[..m] == more;
    } else {
      var n := |more| - 1;
      assert more[..n][..m] == more[..m];
      CriticalGrows(db, start, more[..n], m);
      var c := Critical(db, start, more[..n]);
      assert Critical(db, start, more) == c + (if more[n] < |db.facts| then EventPaths(db, db.facts[more[n]].event) else []);
    }
  }

  lemma VisitJustified(fs: FS, db: Db, start: nat, w: Walk, k: nat)
    requires Justified(fs, db, start, w.found)
    ensures Justified(fs, db, start, Visit(fs, db, start, w, k).found)
  {
    if k < |db.facts| && !IsDir(fs, PathOf(db, k)) && !IsUsage(db.facts[k]) && PathOf(db, k) in Critical(db, start, w.found) {
      Record(fs, db, start, w.found, k);
    }
  }

  /** The inner loop keeps every recorded fact justified. */
  lemma {:induction false} ExpandJustified(fs: FS, db: Db, start: nat, w: Walk, ks: seq<nat>)
    requires Justified(fs, db, start, w.found)
    ensures Justified(fs, db, start, Expand(fs, db, start, w, ks).found)
    decreases |ks|
  {
    if ks != [] {
      ExpandJustified(fs, db, start, w, ks[..|ks| - 1]);
      VisitJustified(fs, db, start, Expand(fs, db, start, w, ks[..|ks| - 1]), ks[|ks| - 1]);
    }
  }

  /** The inner loop only appends to the recorded facts, facts of `ks` in
      the order of `ks`. */
  lemma {:induction false} ExpandFound(fs: FS, db: Db, start: nat, w: Walk, ks: seq<nat>)
    ensures var f := Expand(fs, db, start, w, ks).found;
            && |f| >= |w.found| && f[..|w.found|] == w.found
            && (forall i :: |w.found| <= i < |f| ==> f[i] in ks)
            && (Increasing(ks) ==> forall i, j :: |w.found| <= i < j < |f| ==> f[i] < f[j])
    decreases |ks|
  {
    if ks != [] {
      var n := |ks| - 1;
      var v := Expand(fs, db, start, w, ks[..n]).found;
      ExpandFound(fs, db, start, w, ks[..n]);
      var f := Expand(fs, db, start, w, ks).found;
      assert f == v || f == v + [ks[n]];
      forall i | |w.found| <= i < |f| ensures f[i] in ks {
        if i < |v| {
          assert f[i] == v[i] && v[i] in ks[..n];
        }
      }
      if Increasing(ks) {
        assert Increasing(ks[..n]);
        forall i, j | |w.found| <= i < j < |f| ensures f[i] < f[j] {
          if j >= |v| {
            assert f[i] == v[i] && v[i] in ks[..n];
          }
        }
      }
    }
  }

  /** The inner loop only pushes events onto the stack. */
  lemma {:induction false} ExpandStack(fs: FS, db: Db, start: nat, w: Walk, ks: seq<nat>)
    ensures var st := Expand(fs, db, start, w, ks).stack;
            && |st| >= |w.stack| && st[..|w.stack|] == w.stack
            && (forall i :: |w.stack| <= i < |st| ==> st[i] in EventsOf(db))
    decreases |ks|
  {
    if ks != [] {
      var n := |ks| - 1;
      ExpandStack(fs, db, start, w, ks[..n]);
      var v := Expand(fs, db, start, w, ks[..n]).stack;
      if ks[n] < |db.facts| && Producer(db, ks[n]).Some? {
        ProducerIsEvent(db, ks[n]);
      }
      var st := Expand(fs, db, start, w, ks).stack;
      assert st == v || st == v + [Producer(db, ks[n]).value];
    }
  }

  lemma VisitGrows(fs: FS, db: Db, start: nat, w: Walk, k: nat)
    ensures var f := Visit(fs, db, start, w, k).found;
            f == w.found || f == w.found + [k]
    ensures Recordable(fs, db, k) && PathOf(db, k) in Critical(db, start, w.found) ==>
              Visit(fs, db, start, w, k).found == w.found + [k]
  {
  }

  lemma ExpandSnoc(fs: FS, db: Db, start: nat, w: Walk, ks: seq<nat>, c: nat)
    requires c < |ks|
    ensures Expand(fs, db, start, w, ks[..c + 1]) == Visit(fs, db, start, Expand(fs, db, start, w, ks[..c]), ks[c])
  {
    assert ks[..c + 1][..c] == ks[..c];
  }

  /** The last fact of `ks`, a recordable action on a path critical
      before the loop, is recorded. */
  lemma RecordsLast(fs: FS, db: Db, start: nat, w: Walk, ks: seq<nat>)
    requires ks != [] && Recordable(fs, db, ks[|ks| - 1])
    requires PathOf(db, ks[|ks| - 1]) in Critical(db, start, w.found)
    ensures ks[|ks| - 1] in Expand(fs, db, start, w, ks).found
  {
    var n := |ks| - 1;
    var v := Expand(fs, db, start, w, ks[..n]);
    ExpandFound(fs, db, start, w, ks[..n]);
    CriticalGrows(db, start, v.found, |w.found|);
    VisitGrows(fs, db, start, v, ks[n]);
  }

  /** Every fact of `ks` that is a recordable action on a path already
      critical before the loop is recorded. */
  lemma {:induction false} ExpandRecords(fs: FS, db: Db, start: nat, w: Walk, ks: seq<nat>, k: nat)
    requires k in ks && Recordable(fs, db, k) && PathOf(db, k) in Critical(db, start, w.found)
    ensures k in Expand(fs, db, start, w, ks).found
    decreases |ks|
  {
    var n := |ks| - 1;
    if ks[n] == k {
      RecordsLast(fs, db, start, w, ks);
    } else {
      assert k in ks[..n];
      ExpandRecords(fs, db, start, w, ks[..n], k);
      VisitGrows(fs, db, start, Expand(fs, db, start, w, ks[..n]), ks[n]);
    }
  }

  /** `for ie in event.items.all(): ...` for the event `e` just popped. */
  method ExpandEvent(fs: FS, db: Db, start: nat, e: nat, crit: seq<Path>, found: seq<nat>, stack: seq<nat>)
      returns (crit': seq<Path>, found': seq<nat>, stack': seq<nat>)
    requires crit == Critical(db, start, found)
    ensures crit' == Critical(db, start, found')
    ensures Walk(found', stack') == Expand(fs, db, start, Walk(found, stack), FactsOf(db, e))
  {
    var ks := FactsOf(db, e);
    crit', found', stack' := crit, found, stack;
    for c := 0 to |ks|
      invariant crit' == Critical(db, start, found')
      invariant Walk(found', stack') == Expand(fs, db, start, Walk(found, stack), ks[..c])
    {
      ExpandSnoc(fs, db, start, Walk(found, stack), ks, c);
      var k := ks[c];
      var p := PathOf(db, k);
      if k >= |db.facts| || IsDir(fs, p) {
        continue;
      }
      if !IsUsage(db.facts[k]) && p in crit' {
        CriticalSnoc(db, start, found', k);
        found' := found' + [k];
        crit' := crit' + EventPaths(db, db.facts[k].event);
      }
      var producer := Producer(db, k);
      if producer.Some? {
        stack' := stack' + [producer.value];
      }
    }
    assert ks[..|ks|] == ks;
  }

  /** What `uuids` holds for event `e`. */
  function Key(db: Db, e: nat): Option<string> {
    if e < |db.events| then db.events[e].uuid else None
  }

  /** Every key the walk can meet. */
  function Keys(db: Db, start: nat): set<Option<string>> {
    set e | e in EventsOf(db) + {start} :: Key(db, e)
  }

  function Reversed(s: seq<nat>): (r: seq<nat>)
    ensures |r| == |s| && forall i :: 0 <= i < |s| ==> r[i] == s[|s| - 1 - i]
  {
    if s == [] then [] else [s[|s| - 1]] + Reversed(s[..|s| - 1])
  }

  lemma ReversedTwice(s: seq<nat>)
    ensures Reversed(Reversed(s)) == s
  {
  }

  lemma ReversedSame(s: seq<nat>, x: nat)
    ensures x in Reversed(s) <==> x in s
    ensures Distinct(s) ==> Distinct(Reversed(s))
  {
    var r := Reversed(s);
    if x in s {
      var i :| 0 <= i < |s| && s[i] == x;
      assert r[|s| - 1 - i] == x;
    }
    if Distinct(s) {
      forall i, j | 0 <= i < j < |r| ensures r[i] != r[j] {
        assert r[i] == s[|s| - 1 - i] && r[j] == s[|s| - 1 - j];
      }
    }
  }

  lemma Shrinks<T>(u: set<T>, seen: set<T>, x: T)
    requires x in u && x !in seen
    ensures |u - (seen + {x})| < |u - seen|
  {
    assert (u - (seen + {x})) + {x} == u - seen;
  }

  /** Every recorded fact belongs to an event whose key is in `seen`. */
  predicate Tagged(db: Db, found: seq<nat>, seen: set<Option<string>>) {
    forall i :: 0 <= i < |found| ==> found[i] < |db.facts| && Key(db, db.facts[found[i]].event) in seen
  }

  /** Every value `uuids` can hold: the key of any event index. */
  function AllKeys(db: Db): set<Option<string>> {
    {None} + set i | 0 <= i < |db.events| :: db.events[i].uuid
  }

  lemma KeyIn(db: Db, e: nat)
    ensures Key(db, e) in AllKeys(db)
  {
    if e < |db.events| {
      assert db.events[e].uuid in set i | 0 <= i < |db.events| :: db.events[i].uuid;
    }
  }

  /** The outer loop of `needed`, from the facts recorded so far, the
      stack of events still to pop and the keys already expanded: pop the
      top event, skip it if its key was expanded, otherwise expand it.
      The result is `needed_ies` once the stack is empty. */
  function Drain(fs: FS, db: Db, start: nat, found: seq<nat>, stack: seq<nat>, seen: set<Option<string>>): seq<nat>
    decreases |AllKeys(db) - seen|, |stack|
  {
    if stack == [] then found
    else
      var e := stack[|stack| - 1];
      var rest := stack[..|stack| - 1];
      if Key(db, e) in seen then Drain(fs, db, start, found, rest, seen)
      else
        KeyIn(db, e);
        Shrinks(AllKeys(db), seen, Key(db, e));
        var w := Expand(fs, db, start, Walk(found, rest), FactsOf(db, e));
        Drain(fs, db, start, w.found, w.stack, seen + {Key(db, e)})
  }

  /** The facts the inner loop records, expanding the events `ex` in
      order from an empty `needed_ies`. Recording does not look at the
      stack, so the stack is left out. */
  function Discovered(fs: FS, db: Db, start: nat, ex: seq<nat>): seq<nat> {
    if ex == [] then []
    else Expand(fs, db, start, Walk(Discovered(fs, db, start, ex[..|ex| - 1]), []), FactsOf(db, ex[|ex| - 1])).found
  }

  /** What the inner loop records does not depend on the stack. */
  lemma {:induction false} ExpandFoundStackFree(fs: FS, db: Db, start: nat, found: seq<nat>, stack: seq<nat>, ks: seq<nat>)
    ensures Expand(fs, db, start, Walk(found, stack), ks).found == Expand(fs, db, start, Walk(found, []), ks).found
    decreases |ks|
  {
    if ks != [] {
      var n := |ks| - 1;
      ExpandFoundStackFree(fs, db, start, found, stack, ks[..n]);
      var v1 := Expand(fs, db, start, Walk(found, stack), ks[..n]);
      var v2 := Expand(fs, db, start, Walk(found, []), ks[..n]);
      assert Visit(fs, db, start, v1, ks[n]).found == Visit(fs, db, start, v2, ks[n]).found;
    }
  }

  /** The keys of the events in `s`. */
  function KeysOf(db: Db, s: seq<nat>): set<Option<string>> {
    if s == [] then {} else KeysOf(db, s[..|s| - 1]) + {Key(db, s[|s| - 1])}
  }

  /** Fact `k` is met by the inner loop and names a producing event. */
  predicate Pushes(fs: FS, db: Db, k: nat) {
    k < |db.facts| && !IsDir(fs, PathOf(db, k)) && Producer(db, k).Some?
  }

  /** Every producer named by a fact of an expanded event has had its key
      expanded, or is still on the stack. */
  predicate Pending(fs: FS, db: Db, expanded: seq<nat>, seen: set<Option<string>>, stack: seq<nat>) {
    forall i, k :: 0 <= i < |expanded| && k in FactsOf(db, expanded[i]) && Pushes(fs, db, k) ==>
      Key(db, Producer(db, k).value) in seen || Producer(db, k).value in stack
  }

  /** The walk is closed: every producer named by a fact of an expanded
      event has the key of an expanded event. */
  predicate Closed(fs: FS, db: Db, expanded: seq<nat>) {
    forall i, k :: 0 <= i < |expanded| && k in FactsOf(db, expanded[i]) && Pushes(fs, db, k) ==>
      Key(db, Producer(db, k).value) in KeysOf(db, expanded)
  }

  /** `needed(path, hash)`: the facts printed, in print order, or `None`
      for "Not found...". The facts printed are those of the walk, in
      reverse order of discovery; `expanded` lists the events expanded,
      in order, starting with the event of the queried fact. Each event
      key is expanded at most once and the walk is closed under
      producers. Every fact printed is an action on a file whose path was
      critical when it was met, no fact is printed twice, and the fact the
      query names is printed whenever it is itself such an action. */
  method Needed(fs: FS, db: Db, cwd: Path, path: Path, hash: Bytes) returns (r: Option<seq<nat>>, ghost expanded: seq<nat>)
    ensures r.None? <==> How(db, cwd, path, hash).None?
    ensures r.Some? ==> var start := db.facts[How(db, cwd, path, hash).value].event;
                        r.value == Reversed(Drain(fs, db, start, [], [start], {}))
    ensures r.Some? ==> |expanded| > 0 && expanded[0] == db.facts[How(db, cwd, path, hash).value].event
    ensures r.Some? ==> var start := db.facts[How(db, cwd, path, hash).value].event;
                        r.value == Reversed(Discovered(fs, db, start, expanded))
    ensures forall i, j :: 0 <= i < j < |expanded| ==> Key(db, expanded[i]) != Key(db, expanded[j])
    ensures Closed(fs, db, expanded)
    ensures r.Some? ==> var k := How(db, cwd, path, hash).value;
                        Justified(fs, db, db.facts[k].event, Reversed(r.value))
    ensures r.Some? ==> Distinct(r.value)
    ensures r.Some? ==> var k := How(db, cwd, path, hash).value;
                        Recordable(fs, db, k) ==> k in r.value
  {
    expanded := [];
    var how := How(db, cwd, path, hash);
    if how.None? {
      return None, expanded;
    }
    var k0 := how.value;
    var start := db.facts[k0].event;
    var crit := EventPaths(db, start);
    var found: seq<nat> := [];
    var stack := [start];
    var seen: set<Option<string>> := {};
    ghost var universe := Keys(db, start);
    while |stack| > 0
      invariant Walking(fs, db, k0, crit, found, stack, seen, expanded)
      decreases |universe - seen|, |stack|
    {
      crit, found, stack, seen, expanded := Pop(fs, db, k0, crit, found, stack, seen, expanded);
    }
    WalkingDone(fs, db, k0, crit, found, seen, expanded);
    ReversedTwice(found);
    ReversedSame(found, k0);
    return Some(Reversed(found)), expanded;
  }

  /** The invariant of `needed`'s outer loop, for the query's fact `k0`. */
  predicate Walking(fs: FS, db: Db, k0: nat, crit: seq<Path>, found: seq<nat>, stack: seq<nat>,
                    seen: set<Option<string>>, expanded: seq<nat>) {
    && Recording(fs, db, k0, crit, found, stack, seen)
    && Tracking(fs, db, db.facts[k0].event, found, stack, seen, expanded)
  }

  /** What the facts recorded so far satisfy. */
  predicate Recording(fs: FS, db: Db, k0: nat, crit: seq<Path>, found: seq<nat>, stack: seq<nat>,
                      seen: set<Option<string>>) {
    k0 < |db.facts| &&
    var start := db.facts[k0].event;
    && crit == Critical(db, start, found) && Justified(fs, db, start, found)
    && (forall i :: 0 <= i < |stack| ==> stack[i] in EventsOf(db) + {start})
    && seen <= Keys(db, start)
    && Tagged(db, found, seen) && Distinct(found)
    && (Key(db, start) in seen ==> (Recordable(fs, db, k0) ==> k0 in found))
    && (Key(db, start) !in seen ==> stack == [start] && found == [])
  }

  /** How the walk so far relates to `Drain` and to the events expanded. */
  predicate Tracking(fs: FS, db: Db, start: nat, found: seq<nat>, stack: seq<nat>,
                     seen: set<Option<string>>, expanded: seq<nat>) {
    && Drain(fs, db, start, found, stack, seen) == Drain(fs, db, start, [], [start], {})
    && found == Discovered(fs, db, start, expanded)
    && seen == KeysOf(db, expanded)
    && (Key(db, start) !in seen ==> expanded == [])
    && (expanded != [] ==> expanded[0] == start)
    && (forall i :: 0 <= i < |expanded| ==> Key(db, expanded[i]) in seen)
    && (forall i, j :: 0 <= i < j < |expanded| ==> Key(db, expanded[i]) != Key(db, expanded[j]))
    && Pending(fs, db, expanded, seen, stack)
  }

  /** One iteration of the outer loop: pop an event, and expand it unless
      its key was expanded already. */
  method Pop(fs: FS, db: Db, k0: nat, crit: seq<Path>, found: seq<nat>, stack: seq<nat>,
             seen: set<Option<string>>, ghost expanded: seq<nat>)
      returns (crit': seq<Path>, found': seq<nat>, stack': seq<nat>, seen': set<Option<string>>, ghost expanded': seq<nat>)
    requires stack != [] && Walking(fs, db, k0, crit, found, stack, seen, expanded)
    ensures Walking(fs, db, k0, crit', found', stack', seen', expanded')
    ensures var u := Keys(db, db.facts[k0].event);
            |u - seen'| < |u - seen| || (seen' == seen && |stack'| < |stack|)
  {
    var start := db.facts[k0].event;
    var e := stack[|stack| - 1];
    var rest := stack[..|stack| - 1];
    if Key(db, e) in seen {
      RecordingSkip(fs, db, k0, crit, found, stack, seen);
      TrackingSkip(fs, db, start, found, stack, seen, expanded);
      return crit, found, rest, seen, expanded;
    }
    assert e in EventsOf(db) + {start};
    Shrinks(Keys(db, start), seen, Key(db, e));
    assert forall i :: 0 <= i < |rest| ==> rest[i] in EventsOf(db) + {start} by {
      forall i | 0 <= i < |rest| ensures rest[i] in EventsOf(db) + {start} {
        assert rest[i] == stack[i];
      }
    }
    crit', found', stack' := Round(fs, db, k0, e, crit, found, rest, seen);
    TrackingExpand(fs, db, start, found, stack, seen, expanded);
    seen' := seen + {Key(db, e)};
    expanded' := expanded + [e];
  }

  lemma RecordingSkip(fs: FS, db: Db, k0: nat, crit: seq<Path>, found: seq<nat>, stack: seq<nat>,
                      seen: set<Option<string>>)
    requires stack != [] && Key(db, stack[|stack| - 1]) in seen
    requires Recording(fs, db, k0, crit, found, stack, seen)
    ensures Recording(fs, db, k0, crit, found, stack[..|stack| - 1], seen)
  {
    var rest := stack[..|stack| - 1];
    var start := db.facts[k0].event;
    forall i | 0 <= i < |rest| ensures rest[i] in EventsOf(db) + {start} {
      assert rest[i] == stack[i];
    }
  }

  lemma TrackingSkip(fs: FS, db: Db, start: nat, found: seq<nat>, stack: seq<nat>,
                     seen: set<Option<string>>, expanded: seq<nat>)
    requires stack != [] && Key(db, stack[|stack| - 1]) in seen
    requires Tracking(fs, db, start, found, stack, seen, expanded)
    ensures Tracking(fs, db, start, found, stack[..|stack| - 1], seen, expanded)
  {
    PendingSkip(fs, db, expanded, seen, stack);
  }

  lemma TrackingExpand(fs: FS, db: Db, start: nat, found: seq<nat>, stack: seq<nat>,
                       seen: set<Option<string>>, expanded: seq<nat>)
    requires stack != [] && Key(db, stack[|stack| - 1]) !in seen
    requires Key(db, start) !in seen ==> stack == [start]
    requires Tracking(fs, db, start, found, stack, seen, expanded)
    ensures var e := stack[|stack| - 1];
            var w := Expand(fs, db, start, Walk(found, stack[..|stack| - 1]), FactsOf(db, e));
            Tracking(fs, db, start, w.found, w.stack, seen + {Key(db, e)}, expanded + [e])
  {
    var e := stack[|stack| - 1];
    PendingExpand(fs, db, start, expanded, seen, stack, found);
    KeysOfSnoc(db, expanded, e);
    var ex := expanded + [e];
    ExpandFoundStackFree(fs, db, start, found, stack[..|stack| - 1], FactsOf(db, e));
    assert ex[..|expanded|] == expanded;
    var seen' := seen + {Key(db, e)};
    assert forall i :: 0 <= i < |ex| ==> Key(db, ex[i]) in seen' by {
      forall i | 0 <= i < |ex| ensures Key(db, ex[i]) in seen' {
        if i < |expanded| {
          assert ex[i] == expanded[i];
        }
      }
    }
    assert forall i, j :: 0 <= i < j < |ex| ==> Key(db, ex[i]) != Key(db, ex[j]) by {
      forall i, j | 0 <= i < j < |ex| ensures Key(db, ex[i]) != Key(db, ex[j]) {
        assert ex[i] == expanded[i];
      }
    }
  }

  /** Once the stack is empty, the walk is closed. */
  lemma WalkingDone(fs: FS, db: Db, k0: nat, crit: seq<Path>, found: seq<nat>,
                    seen: set<Option<string>>, expanded: seq<nat>)
    requires Walking(fs, db, k0, crit, found, [], seen, expanded)
    ensures Closed(fs, db, expanded)
  {
  }

  lemma KeysOfSnoc(db: Db, s: seq<nat>, e: nat)
    ensures KeysOf(db, s + [e]) == KeysOf(db, s) + {Key(db, e)}
  {
    assert (s + [e])[..|s|] == s;
  }

  /** Popping an event whose key was expanded keeps every producer accounted for. */
  lemma PendingSkip(fs: FS, db: Db, expanded: seq<nat>, seen: set<Option<string>>, stack: seq<nat>)
    requires stack != [] && Key(db, stack[|stack| - 1]) in seen
    requires Pending(fs, db, expanded, seen, stack)
    ensures Pending(fs, db, expanded, seen, stack[..|stack| - 1])
  {
    var rest := stack[..|stack| - 1];
    forall i, k | 0 <= i < |expanded| && k in FactsOf(db, expanded[i]) && Pushes(fs, db, k)
      ensures Key(db, Producer(db, k).value) in seen || Producer(db, k).value in rest
    {
      var p := Producer(db, k).value;
      if p in stack && p != stack[|stack| - 1] {
        var m :| 0 <= m < |stack| && stack[m] == p;
        assert rest[m] == p;
      }
    }
  }

  /** Expanding the popped event `e` pushes the producers its facts name,
      and keeps every earlier producer accounted for. */
  lemma PendingExpand(fs: FS, db: Db, start: nat, expanded: seq<nat>, seen: set<Option<string>>,
                      stack: seq<nat>, found: seq<nat>)
    requires stack != []
    requires Pending(fs, db, expanded, seen, stack)
    ensures var e := stack[|stack| - 1];
            var w := Expand(fs, db, start, Walk(found, stack[..|stack| - 1]), FactsOf(db, e));
            Pending(fs, db, expanded + [e], seen + {Key(db, e)}, w.stack)
  {
    var e := stack[|stack| - 1];
    var rest := stack[..|stack| - 1];
    var w := Expand(fs, db, start, Walk(found, rest), FactsOf(db, e));
    ExpandStack(fs, db, start, Walk(found, rest), FactsOf(db, e));
    var ex := expanded + [e];
    forall i, k | 0 <= i < |ex| && k in FactsOf(db, ex[i]) && Pushes(fs, db, k)
      ensures Key(db, Producer(db, k).value) in seen + {Key(db, e)} || Producer(db, k).value in w.stack
    {
      var p := Producer(db, k).value;
      if i == |expanded| {
        ExpandPushes(fs, db, start, Walk(found, rest), FactsOf(db, e), k);
      } else {
        assert ex[i] == expanded[i];
        if p in stack && p != e {
          var m :| 0 <= m < |stack| && stack[m] == p;
          assert rest[m] == p && w.stack[m] == p;
        }
      }
    }
  }

  /** The inner loop pushes the producer of every fact it meets. */
  lemma {:induction false} ExpandPushes(fs: FS, db: Db, start: nat, w: Walk, ks: seq<nat>, k: nat)
    requires k in ks && Pushes(fs, db, k)
    ensures Producer(db, k).value in Expand(fs, db, start, w, ks).stack
    decreases |ks|
  {
    var n := |ks| - 1;
    var v := Expand(fs, db, start, w, ks[..n]);
    var st := Expand(fs, db, start, w, ks).stack;
    if ks[n] == k {
      assert st == Visit(fs, db, start, v, k).stack;
      assert st[|st| - 1] == Producer(db, k).value;
    } else {
      assert k in ks[..n];
      ExpandPushes(fs, db, start, w, ks[..n], k);
      var p := Producer(db, k).value;
      var m :| 0 <= m < |v.stack| && v.stack[m] == p;
      assert st == v.stack || st == v.stack + [Producer(db, ks[n]).value];
      assert st[m] == p;
    }
  }

  /** Popping and expanding an event `e` whose key is not yet in `seen`. */
  method Round(fs: FS, db: Db, k0: nat, e: nat, crit: seq<Path>, found: seq<nat>, stack: seq<nat>,
               ghost seen: set<Option<string>>)
      returns (crit': seq<Path>, found': seq<nat>, stack': seq<nat>)
    requires k0 < |db.facts| && Key(db, e) !in seen
    requires var start := db.facts[k0].event;
             && crit == Critical(db, start, found) && Justified(fs, db, start, found)
             && (forall i :: 0 <= i < |stack| ==> stack[i] in EventsOf(db) + {start})
             && Tagged(db, found, seen) && Distinct(found)
             && (Key(db, start) in seen ==> (Recordable(fs, db, k0) ==> k0 in found))
             && (Key(db, start) !in seen ==> e == start && found == [])
    ensures var start := db.facts[k0].event;
            && crit' == Critical(db, start, found') && Justified(fs, db, start, found')
            && (forall i :: 0 <= i < |stack'| ==> stack'[i] in EventsOf(db) + {start})
            && Tagged(db, found', seen + {Key(db, e)}) && Distinct(found')
            && (Recordable(fs, db, k0) ==> k0 in found')
            && Walk(found', stack') == Expand(fs, db, start, Walk(found, stack), FactsOf(db, e))
  {
    var start := db.facts[k0].event;
    ghost var w := Walk(found, stack);
    crit', found', stack' := ExpandEvent(fs, db, start, e, crit, found, stack);
    ExpandJustified(fs, db, start, w, FactsOf(db, e));
    StackKeeps(fs, db, start, w, e);
    ExpandFresh(fs, db, start, e, w, seen);
    if Recordable(fs, db, k0) {
      if Key(db, start) !in seen {
        FirstExpansion(fs, db, k0, w);
      } else {
        KeepsRecorded(fs, db, start, w, FactsOf(db, e), k0);
      }
    }
  }

  lemma StackKeeps(fs: FS, db: Db, start: nat, w: Walk, e: nat)
    requires forall i :: 0 <= i < |w.stack| ==> w.stack[i] in EventsOf(db) + {start}
    ensures var st := Expand(fs, db, start, w, FactsOf(db, e)).stack;
            forall i :: 0 <= i < |st| ==> st[i] in EventsOf(db) + {start}
  {
    ExpandStack(fs, db, start, w, FactsOf(db, e));
    var st := Expand(fs, db, start, w, FactsOf(db, e)).stack;
    forall i | 0 <= i < |st| ensures st[i] in EventsOf(db) + {start} {
      if i < |w.stack| {
        assert st[i] == w.stack[i];
      }
    }
  }

  /** Expanding an event whose key is new records no fact twice. */
  lemma ExpandFresh(fs: FS, db: Db, start: nat, e: nat, w: Walk, seen: set<Option<string>>)
    requires Tagged(db, w.found, seen) && Distinct(w.found) && Key(db, e) !in seen
    ensures var f := Expand(fs, db, start, w, FactsOf(db, e)).found;
            Tagged(db, f, seen + {Key(db, e)}) && Distinct(f)
  {
    var ks := FactsOf(db, e);
    FactsOfFromMeans(db, e, |db.facts|);
    ExpandFound(fs, db, start, w, ks);
    var f := Expand(fs, db, start, w, ks).found;
    assert forall i :: 0 <= i < |w.found| ==> f[i] == w.found[i];
    forall i | |w.found| <= i < |f| ensures f[i] < |db.facts| && db.facts[f[i]].event == e {
      var m :| 0 <= m < |ks| && ks[m] == f[i];
    }
  }

  lemma KeepsRecorded(fs: FS, db: Db, start: nat, w: Walk, ks: seq<nat>, k: nat)
    requires k in w.found
    ensures k in Expand(fs, db, start, w, ks).found
  {
    ExpandFound(fs, db, start, w, ks);
    var m :| 0 <= m < |w.found| && w.found[m] == k;
    assert Expand(fs, db, start, w, ks).found[m] == k;
  }

  /** The first expansion, of the event the query names, records that fact. */
  lemma FirstExpansion(fs: FS, db: Db, k0: nat, w: Walk)
    requires k0 < |db.facts| && Recordable(fs, db, k0) && w.found == []
    ensures k0 in Expand(fs, db, db.facts[k0].event, w, FactsOf(db, db.facts[k0].event)).found
  {
    var e := db.facts[k0].event;
    FactsOfFromMeans(db, e, |db.facts|);
    PathsOfMember(db, FactsOf(db, e), k0);
    ExpandRecords(fs, db, e, w, FactsOf(db, e), k0);
  }
}

/** `ChitinDaemon.orchestrate` as a sequential state machine. The daemon
    loop is single-threaded bookkeeping over three queues and a table of
    worker processes; the workers themselves are the environment, whose
    actions (a command finishing, a post-processing pass finishing) append
    payloads to `output_q` between ticks. */
module Scheduler {

  import opened Base

  type Uuid = string

  /** A command block read from `cmd_q`; the falsy block is `None`. */
  datatype Job = Job(uuid: Uuid, cmd: string)

  /** A block a worker puts on `output_q`: `post` is the `"post"` key that
      `handle_post` adds; `returnCode` is the command's exit status. */
  datatype Payload = Payload(uuid: Uuid, post: bool, returnCode: int)

  /** The worker process registered under a uuid: running the command, done
      running it (its payload is queued), ended by an exception before its
      payload was put (`Aborted`), post-processing it, or done
      post-processing it, having put its block back on `output_q` or not. */
  datatype Phase = Executing | Executed | Aborted | Posting(returnCode: int) | Posted(delivered: bool)

  datatype State = State(cmdQ: seq<Option<Job>>, outputQ: seq<Payload>, resultQ: seq<Payload>,
                         processes: map<Uuid, Phase>, tryOuts: bool, waitToDone: bool, maxProc: nat)

  /** How a tick ends: the loop goes on, `orchestrate` returns, or looking up
      the payload's worker raises `KeyError`. */
  datatype Outcome = Continue | Return | KeyError(uuid: Uuid)

  datatype Ticked = Ticked(state: State, outcome: Outcome)

  /** Taking the head of `output_q`: a post payload's worker is terminated,
      the payload forwarded to `result_q` and its entry deleted; an execution
      payload's worker is replaced by its post-processing worker under the
      same uuid; a uuid with no worker raises `KeyError`. */
  function Take(s: State): (r: Ticked)
    requires |s.outputQ| > 0
    ensures var b := s.outputQ[0];
            && r.state.outputQ == s.outputQ[1..] && r.state.cmdQ == s.cmdQ
            && r.state.tryOuts == s.tryOuts && r.state.waitToDone == s.waitToDone && r.state.maxProc == s.maxProc
            && (b.uuid !in s.processes ==>
                  r == Ticked(s.(outputQ := s.outputQ[1..]), KeyError(b.uuid)))
            && (b.uuid in s.processes && b.post ==>
                  && r.outcome == Continue
                  && r.state.resultQ == s.resultQ + [b]
                  && r.state.processes == s.processes - {b.uuid})
            && (b.uuid in s.processes && !b.post ==>
                  && r.outcome == Continue
                  && r.state.resultQ == s.resultQ
                  && r.state.processes == s.processes[b.uuid := Posting(b.returnCode)])
  {
    var b := s.outputQ[0];
    var s1 := s.(outputQ := s.outputQ[1..]);
    if b.uuid !in s.processes then Ticked(s1, KeyError(b.uuid))
    else if b.post then Ticked(s1.(resultQ := s.resultQ + [b], processes := s.processes - {b.uuid}), Continue)
    else Ticked(s1.(processes := s.processes[b.uuid := Posting(b.returnCode)]), Continue)
  }

  /** Reading the head of `cmd_q`: the falsy block turns on draining and
      starts nothing; a command gets a worker under its uuid. */
  function Admit(s: State): (r: State)
    requires |s.cmdQ| > 0
    ensures r.cmdQ == s.cmdQ[1..] && r.outputQ == s.outputQ && r.resultQ == s.resultQ
    ensures r.tryOuts == s.tryOuts && r.maxProc == s.maxProc
    ensures s.cmdQ[0].None? ==> r.waitToDone && r.processes == s.processes
    ensures s.cmdQ[0].Some? ==>
              r.waitToDone == s.waitToDone && r.processes == s.processes[s.cmdQ[0].value.uuid := Executing]
  {
    var s1 := s.(cmdQ := s.cmdQ[1..]);
    match s.cmdQ[0]
    case None => s1.(waitToDone := true)
    case Some(j) => s1.(processes := s.processes[j.uuid := Executing])
  }

  /** One pass of the `while True` loop (after its `sleep(1)`). */
  function Step(s: State): (r: Ticked)
    ensures r.state.maxProc == s.maxProc
    // draining is never undone, and once draining `cmd_q` is not read again
    ensures s.waitToDone ==> r.state.waitToDone && r.state.cmdQ == s.cmdQ
    // the loop returns exactly when draining with nothing queued or running
    ensures r.outcome == Return <==> s.waitToDone && |s.outputQ| == 0 && |s.processes| == 0
    // `cmd_q` is read only below the cap, and only outside drain and retry
    ensures r.state.cmdQ != s.cmdQ ==>
              && |s.cmdQ| > 0 && !s.waitToDone && !s.tryOuts && |s.processes| < s.maxProc
              && r == Ticked(Admit(s), Continue)
    // a waiting retry takes the output branch, which clears the flag
    ensures s.tryOuts ==> !r.state.tryOuts && r.state.cmdQ == s.cmdQ
    // at the cap with commands waiting, the flag is raised and nothing else moves
    ensures |s.cmdQ| > 0 && !s.tryOuts && !s.waitToDone && |s.processes| >= s.maxProc ==>
              r == Ticked(s.(tryOuts := true), Continue)
    // `output_q` is read only in the output branch
    ensures r.state.outputQ != s.outputQ ==>
              && |s.outputQ| > 0 && (|s.cmdQ| == 0 || s.tryOuts || s.waitToDone)
              && r == Take(s.(tryOuts := false))
    // `result_q` and the table change only by reading one of the queues
    ensures r.state.outputQ == s.outputQ && r.state.cmdQ == s.cmdQ ==>
              r.state.resultQ == s.resultQ && r.state.processes == s.processes
  {
    if |s.cmdQ| == 0 || s.tryOuts || s.waitToDone then
      var s1 := s.(tryOuts := false);
      if |s.outputQ| == 0 then
        Ticked(s1, if s.waitToDone && |s.processes| == 0 then Return else Continue)
      else
        Take(s1)
    else if |s.processes| < s.maxProc then
      Ticked(Admit(s), Continue)
    else
      Ticked(s.(tryOuts := true), Continue)
  }

  /** `run_command` finishing for `u`: its block goes on `output_q`; or
      raising (`raised`) before `output_q.put`, for instance in the
      integrity check in front of the command, and putting nothing. */
  function Complete(s: State, u: Uuid, returnCode: int, raised: bool): State {
    if u in s.processes && s.processes[u] == Executing then
      if raised then s.(processes := s.processes[u := Aborted])
      else s.(processes := s.processes[u := Executed], outputQ := s.outputQ + [Payload(u, false, returnCode)])
    else s
  }

  /** `handle_post` finishing for `u`, or raising (`raised`): with a
      positive return code it returns early, and either way it then puts
      nothing on `output_q`. */
  function PostComplete(s: State, u: Uuid, raised: bool): State {
    if u in s.processes && s.processes[u].Posting? then
      var rc := s.processes[u].returnCode;
      var delivered := rc <= 0 && !raised;
      s.(processes := s.processes[u := Posted(delivered)],
         outputQ := s.outputQ + (if delivered then [Payload(u, true, rc)] else []))
    else s
  }

  /** The process table never exceeds `MAX_PROC`. */
  predicate WithinCap(s: State) {
    |s.processes| <= s.maxProc
  }

  lemma TakeWithinCap(s: State)
    requires |s.outputQ| > 0 && WithinCap(s)
    ensures WithinCap(Take(s).state)
  {
    var u := s.outputQ[0].uuid;
    if u in s.processes && s.outputQ[0].post {
      assert s.processes.Keys == (s.processes - {u}).Keys + {u};
    }
  }

  /** No tick takes the table past the cap. */
  lemma StepWithinCap(s: State)
    requires WithinCap(s)
    ensures WithinCap(Step(s).state)
  {
    if |s.cmdQ| == 0 || s.tryOuts || s.waitToDone {
      if |s.outputQ| > 0 {
        TakeWithinCap(s.(tryOuts := false));
      }
    }
  }

  /** A payload on `output_q` matches its worker: an execution payload an
      `Executed` worker, a post payload (whose code is not positive) a worker
      that delivered one. */
  predicate Announces(m: map<Uuid, Phase>, b: Payload) {
    && b.uuid in m
    && (!b.post ==> m[b.uuid] == Executed)
    && (b.post ==> m[b.uuid] == Posted(true) && b.returnCode <= 0)
  }

  predicate Queued(q: seq<Payload>, u: Uuid, post: bool) {
    exists i :: 0 <= i < |q| && q[i].uuid == u && q[i].post == post
  }

  /** `output_q` and the table agree: each payload matches its worker, no
      uuid is queued twice, and each worker that has produced a payload has
      it queued. */
  predicate Consistent(q: seq<Payload>, m: map<Uuid, Phase>) {
    && (forall i :: 0 <= i < |q| ==> Announces(m, q[i]))
    && (forall i, j :: 0 <= i < j < |q| ==> q[i].uuid != q[j].uuid)
    && (forall u :: u in m && m[u] == Executed ==> Queued(q, u, false))
    && (forall u :: u in m && m[u] == Posted(true) ==> Queued(q, u, true))
  }

  predicate Matched(s: State) {
    Consistent(s.outputQ, s.processes)
  }

  /** A fresh uuid for the next admitted command (uuid4 in the shell): it
      names no worker and no forwarded result. */
  predicate FreshNext(s: State) {
    |s.cmdQ| > 0 && s.cmdQ[0].Some? ==>
      && s.cmdQ[0].value.uuid !in s.processes
      && forall i :: 0 <= i < |s.resultQ| ==> s.resultQ[i].uuid != s.cmdQ[0].value.uuid
  }

  /** Each command's post payload reaches `result_q` once: the forwarded
      uuids are distinct and none of them still has a worker. */
  predicate ForwardedOnce(s: State) {
    && (forall i, j :: 0 <= i < j < |s.resultQ| ==> s.resultQ[i].uuid != s.resultQ[j].uuid)
    && (forall i :: 0 <= i < |s.resultQ| ==> s.resultQ[i].uuid !in s.processes)
  }

  lemma TakeForwardedOnce(s: State)
    requires |s.outputQ| > 0 && ForwardedOnce(s)
    ensures ForwardedOnce(Take(s).state)
  {
    var r := Take(s).state;
    var b := s.outputQ[0];
    if b.uuid in s.processes && b.post {
      forall i | 0 <= i < |s.resultQ| ensures r.resultQ[i].uuid != b.uuid {
        assert r.resultQ[i] == s.resultQ[i];
      }
    }
  }

  lemma StepForwardedOnce(s: State)
    requires ForwardedOnce(s) && FreshNext(s)
    ensures ForwardedOnce(Step(s).state)
  {
    if |s.cmdQ| == 0 || s.tryOuts || s.waitToDone {
      if |s.outputQ| > 0 {
        TakeForwardedOnce(s.(tryOuts := false));
      }
    }
  }

  lemma EnvironmentForwardedOnce(s: State, u: Uuid, returnCode: int, raised: bool)
    requires ForwardedOnce(s)
    ensures ForwardedOnce(Complete(s, u, returnCode, raised)) && ForwardedOnce(PostComplete(s, u, raised))
  {
  }

  /** With the table matched, looking up a payload's worker never fails. */
  lemma MatchedNoKeyError(s: State)
    requires Matched(s)
    ensures !Step(s).outcome.KeyError?
  {
    if |s.outputQ| > 0 {
      assert Announces(s.processes, s.outputQ[0]);
    }
  }

  lemma {:induction false} TakeConsistent(s: State)
    requires |s.outputQ| > 0 && Matched(s)
    ensures Matched(Take(s).state)
  {
    var r := Take(s).state;
    var q, m := s.outputQ, s.processes;
    var b := q[0];
    assert Announces(m, b);
    forall i | 0 <= i < |r.outputQ| ensures Announces(r.processes, r.outputQ[i]) {
      assert r.outputQ[i] == q[i + 1] && q[i + 1].uuid != b.uuid;
      assert Announces(m, q[i + 1]);
    }
    forall u | u in r.processes && r.processes[u] == Executed ensures Queued(r.outputQ, u, false) {
      assert u != b.uuid && Queued(q, u, false);
      var i :| 0 <= i < |q| && q[i].uuid == u && !q[i].post;
      assert r.outputQ[i - 1] == q[i];
    }
    forall u | u in r.processes && r.processes[u] == Posted(true) ensures Queued(r.outputQ, u, true) {
      assert u != b.uuid && Queued(q, u, true);
      var i :| 0 <= i < |q| && q[i].uuid == u && q[i].post;
      assert r.outputQ[i - 1] == q[i];
    }
  }

  lemma {:induction false} AdmitConsistent(s: State)
    requires |s.cmdQ| > 0 && Matched(s) && FreshNext(s)
    ensures Matched(Admit(s))
  {
    var r := Admit(s);
    if s.cmdQ[0].Some? {
      var q, m, u := s.outputQ, s.processes, s.cmdQ[0].value.uuid;
      forall i | 0 <= i < |q| ensures Announces(r.processes, q[i]) {
        assert Announces(m, q[i]);
      }
      forall v | v in r.processes && r.processes[v] == Executed ensures Queued(q, v, false) {
        assert v != u && v in m;
      }
      forall v | v in r.processes && r.processes[v] == Posted(true) ensures Queued(q, v, true) {
        assert v != u && v in m;
      }
    }
  }

  /** Every tick from a matched state with a fresh next uuid keeps it matched. */
  lemma StepMatched(s: State)
    requires Matched(s) && FreshNext(s)
    ensures Matched(Step(s).state)
  {
    if |s.cmdQ| == 0 || s.tryOuts || s.waitToDone {
      if |s.outputQ| > 0 {
        TakeConsistent(s.(tryOuts := false));
      }
    } else if |s.processes| < s.maxProc {
      AdmitConsistent(s);
    }
  }

  lemma {:induction false} CompleteMatched(s: State, u: Uuid, returnCode: int, raised: bool)
    requires Matched(s)
    ensures Matched(Complete(s, u, returnCode, raised))
  {
    var r := Complete(s, u, returnCode, raised);
    var q, m := s.outputQ, s.processes;
    if r != s && raised {
      forall i | 0 <= i < |q| ensures Announces(r.processes, q[i]) {
        assert Announces(m, q[i]);
      }
    } else if r != s {
      var n := |q|;
      forall i | 0 <= i < n ensures Announces(r.processes, r.outputQ[i]) && r.outputQ[i].uuid != u {
        assert Announces(m, q[i]);
      }
      assert Announces(r.processes, r.outputQ[n]);
      forall v | v in r.processes && r.processes[v] == Executed ensures Queued(r.outputQ, v, false) {
        if v == u {
          assert r.outputQ[n].uuid == u;
        } else {
          var i :| 0 <= i < n && q[i].uuid == v && !q[i].post;
          assert r.outputQ[i] == q[i];
        }
      }
      forall v | v in r.processes && r.processes[v] == Posted(true) ensures Queued(r.outputQ, v, true) {
        var i :| 0 <= i < n && q[i].uuid == v && q[i].post;
        assert r.outputQ[i] == q[i];
      }
    }
  }

  lemma {:induction false} PostCompleteMatched(s: State, u: Uuid, raised: bool)
    requires Matched(s)
    ensures Matched(PostComplete(s, u, raised))
  {
    var r := PostComplete(s, u, raised);
    var q, m := s.outputQ, s.processes;
    if r != s {
      var n := |q|;
      var delivered := m[u].returnCode <= 0 && !raised;
      forall i | 0 <= i < n ensures Announces(r.processes, r.outputQ[i]) && r.outputQ[i].uuid != u {
        assert Announces(m, q[i]);
      }
      if delivered {
        assert Announces(r.processes, r.outputQ[n]);
      }
      forall v | v in r.processes && r.processes[v] == Executed ensures Queued(r.outputQ, v, false) {
        var i :| 0 <= i < n && q[i].uuid == v && !q[i].post;
        assert r.outputQ[i] == q[i];
      }
      forall v | v in r.processes && r.processes[v] == Posted(true) ensures Queued(r.outputQ, v, true) {
        if v == u {
          assert r.outputQ[n].uuid == u;
        } else {
          var i :| 0 <= i < n && q[i].uuid == v && q[i].post;
          assert r.outputQ[i] == q[i];
        }
      }
    }
  }

  function Running(m: map<Uuid, Phase>): set<Uuid> {
    set u | u in m && m[u] == Executing
  }

  function Ran(m: map<Uuid, Phase>): set<Uuid> {
    set u | u in m && m[u] == Executed
  }

  function InPost(m: map<Uuid, Phase>): set<Uuid> {
    set u | u in m && m[u].Posting?
  }

  /** What is left to do before draining can end: each worker still to
      produce a payload, and each payload still to be taken. */
  function Work(s: State): nat {
    |s.outputQ| + 4 * |Running(s.processes)| + 2 * |Ran(s.processes)| + 2 * |InPost(s.processes)|
  }

  /** While draining, a tick that takes a payload lowers the work left. */
  lemma DrainStepLowersWork(s: State)
    requires Matched(s) && s.waitToDone && |s.outputQ| > 0
    ensures Work(Step(s).state) < Work(s)
  {
    var b := s.outputQ[0];
    assert Announces(s.processes, b);
    var m := s.processes;
    var m' := Step(s).state.processes;
    if b.post {
      assert m' == m - {b.uuid};
      assert Running(m') == Running(m);
      assert Ran(m') == Ran(m);
      assert InPost(m') == InPost(m);
    } else {
      assert m' == m[b.uuid := Posting(b.returnCode)];
      assert Running(m') == Running(m);
      assert Ran(m) == Ran(m') + {b.uuid} && b.uuid !in Ran(m');
      assert InPost(m') == InPost(m) + {b.uuid} && b.uuid !in InPost(m);
    }
  }

  /** A worker finishing, or raising, lowers the work left. */
  lemma CompleteLowersWork(s: State, u: Uuid, returnCode: int, raised: bool)
    requires u in s.processes && s.processes[u] == Executing
    ensures Work(Complete(s, u, returnCode, raised)) < Work(s)
  {
    var m := s.processes;
    var m' := Complete(s, u, returnCode, raised).processes;
    assert Running(m) == Running(m') + {u} && u !in Running(m');
    if raised {
      assert m' == m[u := Aborted];
      assert Ran(m') == Ran(m);
    } else {
      assert m' == m[u := Executed];
      assert Ran(m') == Ran(m) + {u} && u !in Ran(m);
    }
    assert InPost(m') == InPost(m);
  }

  lemma PostCompleteLowersWork(s: State, u: Uuid, raised: bool)
    requires u in s.processes && s.processes[u].Posting?
    ensures Work(PostComplete(s, u, raised)) < Work(s)
  {
    var m := s.processes;
    var m' := m[u := Posted(m[u].returnCode <= 0 && !raised)];
    assert Running(m') == Running(m);
    assert Ran(m') == Ran(m);
    assert InPost(m) == InPost(m') + {u} && u !in InPost(m');
  }

  /** A worker that ended without delivering its block: its command raised
      before `output_q.put`, or its post pass returned early or raised. */
  predicate Dead(p: Phase) {
    p == Aborted || p == Posted(false)
  }

  /** No worker has ended without putting its block on `output_q`. */
  predicate NoFailures(s: State) {
    forall u :: u in s.processes ==> !Dead(s.processes[u])
  }

  /** Draining can always make progress unless a worker died: when a tick
      does not return, either it takes a payload (lowering the work left) or
      some worker is still running its command or its post pass. */
  lemma DrainProgress(s: State)
    requires Matched(s) && NoFailures(s) && s.waitToDone
    requires Step(s).outcome != Return
    ensures |s.outputQ| > 0 ||
            exists u :: u in s.processes && (s.processes[u] == Executing || s.processes[u].Posting?)
  {
    if |s.outputQ| == 0 {
      var u :| u in s.processes;
      assert !Queued(s.outputQ, u, false) && !Queued(s.outputQ, u, true);
      assert !Dead(s.processes[u]);
    }
  }

  /** The leaked slot: a worker whose command raised, whose command exited
      with a positive code, or whose post pass raised, stays in the table
      through every tick and every worker action, so draining never returns. */
  lemma LeakedSlot(s: State, u: Uuid, v: Uuid, returnCode: int, raised: bool)
    requires Matched(s) && FreshNext(s) && u in s.processes && Dead(s.processes[u])
    ensures Step(s).outcome != Return
    ensures u in Step(s).state.processes && Step(s).state.processes[u] == s.processes[u]
    ensures Complete(s, v, returnCode, raised).processes[u] == s.processes[u]
    ensures PostComplete(s, v, raised).processes[u] == s.processes[u]
  {
    if |s.outputQ| > 0 {
      assert Announces(s.processes, s.outputQ[0]);
    }
  }

  /** The daemon's state, updated in place by each tick. */
  class Daemon {
    var cmdQ: seq<Option<Job>>
    var outputQ: seq<Payload>
    var resultQ: seq<Payload>
    var processes: map<Uuid, Phase>
    var tryOuts: bool
    var waitToDone: bool
    const maxProc: nat

    function Value(): State
      reads this
    {
      State(cmdQ, outputQ, resultQ, processes, tryOuts, waitToDone, maxProc)
    }

    /** `ChitinDaemon(MAX_PROC)` with the flags `orchestrate` starts from. */
    constructor (maxProc: nat)
      ensures Value() == State([], [], [], map[], false, false, maxProc)
    {
      cmdQ, outputQ, resultQ := [], [], [];
      processes := map[];
      tryOuts, waitToDone := false, false;
      this.maxProc := maxProc;
    }

    /** `queue_command`: a block put on `cmd_q`. */
    method Submit(job: Option<Job>)
      modifies this
      ensures Value() == old(Value()).(cmdQ := old(cmdQ) + [job])
    {
      cmdQ := cmdQ + [job];
    }

    /** One pass of the loop of `orchestrate`. */
    method Tick() returns (outcome: Outcome)
      modifies this
      ensures Ticked(Value(), outcome) == Step(old(Value()))
    {
      outcome := Continue;
      if |cmdQ| == 0 || tryOuts || waitToDone {
        tryOuts := false;
        if |outputQ| == 0 {
          if waitToDone && |processes| == 0 {
            outcome := Return;
          }
          return;
        }
        var block := outputQ[0];
        outputQ := outputQ[1..];
        if block.uuid !in processes {
          outcome := KeyError(block.uuid);
          return;
        }
        if block.post {
          resultQ := resultQ + [block];
          processes := processes - {block.uuid};
        } else {
          processes := processes[block.uuid := Posting(block.returnCode)];
        }
      } else {
        if |processes| < maxProc {
          var block := cmdQ[0];
          cmdQ := cmdQ[1..];
          if block.None? {
            waitToDone := true;
            return;
          }
          processes := processes[block.value.uuid := Executing];
        } else {
          tryOuts := true;
        }
      }
    }

    /** `run_command` for `u` putting its block on `output_q`, or raising
        before it does. */
    method WorkerDone(u: Uuid, returnCode: int, raised: bool)
      modifies this
      ensures Value() == Complete(old(Value()), u, returnCode, raised)
    {
      if u in processes && processes[u] == Executing {
        if raised {
          processes := processes[u := Aborted];
        } else {
          processes := processes[u := Executed];
          outputQ := outputQ + [Payload(u, false, returnCode)];
        }
      }
    }

    /** `handle_post` for `u` ending, or raising. */
    method PostDone(u: Uuid, raised: bool)
      modifies this
      ensures Value() == PostComplete(old(Value()), u, raised)
    {
      if u in processes && processes[u].Posting? {
        var rc := processes[u].returnCode;
        var delivered := rc <= 0 && !raised;
        processes := processes[u := Posted(delivered)];
        if delivered {
          outputQ := outputQ + [Payload(u, true, rc)];
        }
      }
    }
  }
}

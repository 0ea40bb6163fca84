/** What each call of the control service comes to, in its caller's terms: how a run ends, what a cancellation and a
    termination do, and who may consume a session. Over every run. */
module ServiceOutcomes {
  import opened Seqs
  import opened EventLog
  import opened ServiceModel
  import opened ServiceInvariant
  import opened ServiceProgress
  import opened ServiceTheorems

  /** The exit code of a cancelled execution, as shells report a signal; 130 for what is no signal. */
  function SignalCode(signal: int): int {
    if 1 <= signal < 128 then 128 + signal else 130
  }

  lemma FinalizedTrace(s: State, k: Key, status: Status, code: int, message: string, text: string, now: nat,
                       cfg: Config)
    requires k in s.executions && OfExec(k) in s.feeds
    ensures var s' := Finalize(s, k, status, code, message, text, now, cfg);
            && OfExec(k) in s'.feeds && s'.feeds[OfExec(k)].doneClosed
            && s'.feeds[OfExec(k)].trace
               == s.feeds[OfExec(k)].trace
                  + [ExecEvent(status, Exit(code, status, if text == "" then message else text))]
            && k in s'.executions
            && s'.executions[k] == s.executions[k].(status := status, exitCode := code, message := message,
                                                    finishedAt := Some(now))
  {
  }

  lemma PrunedTrace(s: State, now: nat, cfg: Config, k: Key)
    requires OfExec(k) in s.feeds
    ensures var s' := Prune(s, now, cfg);
            && OfExec(k) in s'.feeds && s'.feeds[OfExec(k)].trace == s.feeds[OfExec(k)].trace
            && (s.feeds[OfExec(k)].doneClosed ==> s'.feeds[OfExec(k)].doneClosed)
            && (k in s'.executions ==> k in s.executions && s'.executions[k] == s.executions[k])
  {
  }

  /** The execution under `k` has ended so: its trace is done with this exit event, and its record, if it is still
      stored, says the same. */
  ghost predicate EndsWith(s: State, k: Key, status: Status, code: int, text: string, message: string, now: nat) {
    && OfExec(k) in s.feeds && s.feeds[OfExec(k)].doneClosed
    && var trace := s.feeds[OfExec(k)].trace;
    && trace != [] && trace[|trace| - 1] == ExecEvent(status, Exit(code, status, text))
    && (k in s.executions ==>
          && s.executions[k].status == status && s.executions[k].exitCode == code
          && s.executions[k].message == message && s.executions[k].finishedAt == Some(now))
  }

  lemma CollectedFeed(s: State, k: Key, result: RunResult, streaming: bool, now: nat, cfg: Config)
    requires Inv(s, cfg) && InFlight(s, k)
    ensures k in s.executions && OfExec(k) in Collected(s, k, result, streaming, now, cfg).feeds
  {
    CollectedGathered(s, k, result, streaming, now, cfg);
    assert KeyInv(s, k, cfg);
    assert FeedEvolves(s.feeds, Collected(s, k, result, streaming, now, cfg).feeds, OfExec(k), cfg);
  }

  lemma FinishedTrace(s: State, k: Key, result: RunResult, streaming: bool, now: nat, cfg: Config)
    requires k in s.executions && OfExec(k) in Collected(s, k, result, streaming, now, cfg).feeds
    ensures var (status, code) := RunOutcome(s, k, result);
            EndsWith(FinishRun(s, k, result, streaming, now, cfg), k, status, code, ResultMessage(result),
                     ResultMessage(result), now)
  {
    var s1 := Collected(s, k, result, streaming, now, cfg);
    var (status, code) := RunOutcome(s, k, result);
    FinalizedTrace(s1, k, status, code, ResultMessage(result), "", now, cfg);
    PrunedTrace(Finalize(s1, k, status, code, ResultMessage(result), "", now, cfg), now, cfg, k);
  }

  /** The outcome of a run: without an accepted cancel it SUCCEEDED exactly when the backend returned a result with exit
      code zero, and FAILED otherwise, with the result's code, or 1 for an error. With one it is CANCELED with the last
      signal's code. */
  predicate Reports(result: RunResult, signals: seq<int>, status: Status, code: int) {
    if signals != [] then status == Canceled && code == SignalCode(signals[|signals| - 1])
    else if result.RunFailed? then status == Failed && code == 1
    else if result.exitCode != 0 then status == Failed && code == Int32(result.exitCode)
    else status == Succeeded && code == 0
  }

  lemma OutcomeReports(s: State, k: Key, result: RunResult, cfg: Config)
    requires KeyInv(s, k, cfg) && k in s.executions && s.executions[k].status.Running?
    ensures k in s.signals
    ensures var (status, code) := RunOutcome(s, k, result); Reports(result, s.signals[k], status, code)
  {
  }

  /** The trace is done, with an exit event that reports the outcome and carries the result's message or the error. */
  ghost predicate EndsAsReported(s: State, k: Key, result: RunResult, signals: seq<int>, now: nat) {
    var text := if result.RunOk? then result.message else result.error;
    exists status, code :: Reports(result, signals, status, code) && EndsWith(s, k, status, code, text, text, now)
  }

  lemma FinishReports(s: State, k: Key, result: RunResult, streaming: bool, now: nat, cfg: Config)
    requires Inv(s, cfg) && InFlight(s, k)
    ensures k in s.signals && EndsAsReported(FinishRun(s, k, result, streaming, now, cfg), k, result, s.signals[k], now)
  {
    InFlightState(s, k, cfg);
    CollectedFeed(s, k, result, streaming, now, cfg);
    FinishedTrace(s, k, result, streaming, now, cfg);
    assert KeyInv(s, k, cfg);
    OutcomeReports(s, k, result, cfg);
  }

  /** How a run ends, in every run of the service. */
  lemma RunEndsAsReported(states: seq<State>, ops: seq<Op>, cfg: Config, i: nat)
    requires IsRun(states, ops, cfg) && i < |ops| && ops[i].OpFinishRun?
    ensures var s, k := states[i], ops[i].key;
            && k in s.executions && s.executions[k].status.Running? && k in s.signals
            && OfExec(k) in s.feeds && !s.feeds[OfExec(k)].doneClosed
            && EndsAsReported(states[i + 1], k, ops[i].result, s.signals[k], ops[i].now)
  {
    RunInv(states, ops, cfg, i);
    assert StepAt(states, ops, cfg, i);
    InFlightState(states[i], ops[i].key, cfg);
    FinishReports(states[i], ops[i].key, ops[i].result, ops[i].streaming, ops[i].now, cfg);
  }

  lemma InFlightState(s: State, k: Key, cfg: Config)
    requires Inv(s, cfg) && InFlight(s, k)
    ensures k in s.executions && s.executions[k].status.Running? && k in s.signals
    ensures OfExec(k) in s.feeds && !s.feeds[OfExec(k)].doneClosed
  {
    assert KeyInv(s, k, cfg);
  }

  // ---- Cancelling ----

  /** An event about the execution that is neither output nor its end. */
  function Notice(status: Status, text: string): Event {
    ExecEvent(status, Message(text))
  }

  lemma CancelNotedTrace(s: State, k: Key, signal: int, cfg: Config)
    requires k in s.executions && OfExec(k) in s.feeds && k in s.signals
    ensures var s' := CancelNoted(s, k, signal, cfg);
            && OfExec(k) in s'.feeds && s'.feeds[OfExec(k)].doneClosed == s.feeds[OfExec(k)].doneClosed
            && s'.feeds[OfExec(k)].trace
               == s.feeds[OfExec(k)].trace + [Notice(s.executions[k].status, "cancel requested")]
            && s'.signals == s.signals[k := s.signals[k] + [signal]]
            && s'.executions == s.executions[k := s.executions[k].(cancelRequested := true, cancelSignal := signal)]
            && s'.cancels == s.cancels
  {
  }

  /** A queued execution that is cancelled ends at once and never runs. */
  lemma CancelQueued(s: State, k: Key, signal: int, now: nat, cfg: Config)
    requires k in s.executions && s.executions[k].status.Queued? && OfExec(k) in s.feeds && k in s.signals
    ensures var s', n := Cancel(s, k, signal, now, cfg), if signal == 0 then 2 else signal;
            && EndsWith(s', k, Canceled, SignalCode(n), "execution canceled before start", s.executions[k].message, now)
            && s'.feeds[OfExec(k)].trace[..|s'.feeds[OfExec(k)].trace| - 1]
               == s.feeds[OfExec(k)].trace + [Notice(Queued, "cancel requested")]
            && s'.signals == s.signals[k := s.signals[k] + [n]]
  {
    var n, message, text := NormalSignal(signal), s.executions[k].message, "execution canceled before start";
    var s1 := CancelNoted(s, k, n, cfg);
    CancelNotedTrace(s, k, n, cfg);
    FinalizedTrace(s1, k, Canceled, CancelExitCode(n), message, text, now, cfg);
    PrunedTrace(Finalize(s1, k, Canceled, CancelExitCode(n), message, text, now, cfg), now, cfg, k);
  }

  /** A running one is told so, and its cancel function is due to be called. */
  lemma CancelRunning(s: State, k: Key, signal: int, now: nat, cfg: Config)
    requires k in s.executions && s.executions[k].status.Running? && OfExec(k) in s.feeds && k in s.signals
    requires s.executions[k].hasCancel
    ensures var s', n := Cancel(s, k, signal, now, cfg), if signal == 0 then 2 else signal;
            && OfExec(k) in s'.feeds && s'.feeds[OfExec(k)].doneClosed == s.feeds[OfExec(k)].doneClosed
            && s'.feeds[OfExec(k)].trace == s.feeds[OfExec(k)].trace + [Notice(Running, "cancel requested")]
            && s'.signals == s.signals[k := s.signals[k] + [n]] && s'.cancels == s.cancels + multiset{k}
            && s'.executions == s.executions[k := s.executions[k].(cancelRequested := true, cancelSignal := n)]
  {
    CancelNotedTrace(s, k, NormalSignal(signal), cfg);
  }

  /** What a cancel request does, in every run: nothing to an unknown or finished execution; it ends a queued one as
      CANCELED, and asks a running one to stop, noting the signal, where none means an interrupt. */
  lemma CancelMeans(states: seq<State>, ops: seq<Op>, cfg: Config, i: nat)
    requires IsRun(states, ops, cfg) && i < |ops| && ops[i].OpCancel?
    ensures var s, s', k := states[i], states[i + 1], ops[i].key;
            var signal := if ops[i].signal == 0 then 2 else ops[i].signal;
            && (!Live(s.executions, k) ==> s' == s)
            && (Live(s.executions, k) ==>
                  && k in s.signals && s'.signals == s.signals[k := s.signals[k] + [signal]]
                  && (if s.executions[k].status.Queued? then
                        EndsWith(s', k, Canceled, SignalCode(signal), "execution canceled before start",
                                 s.executions[k].message, ops[i].now)
                      else
                        && k in s'.executions && s'.executions[k].status.Running? && k in s'.cancels
                        && OfExec(k) in s'.feeds && !s'.feeds[OfExec(k)].doneClosed))
  {
    var s, k := states[i], ops[i].key;
    RunInv(states, ops, cfg, i);
    assert StepAt(states, ops, cfg, i);
    if Live(s.executions, k) {
      LiveState(s, k, cfg);
      if s.executions[k].status.Queued? {
        CancelQueued(s, k, ops[i].signal, ops[i].now, cfg);
      } else {
        CancelRunning(s, k, ops[i].signal, ops[i].now, cfg);
      }
    }
  }

  lemma LiveState(s: State, k: Key, cfg: Config)
    requires Inv(s, cfg) && Live(s.executions, k)
    ensures OfExec(k) in s.feeds && !s.feeds[OfExec(k)].doneClosed && k in s.signals
    ensures s.executions[k].status.Running? ==> s.executions[k].hasCancel
  {
    assert KeyInv(s, k, cfg);
  }

  // ---- Terminating ----

  /** What becomes of a live execution of a sandbox that is terminated: a queued one has ended, a running one is asked
      to stop, both with the termination signal. */
  ghost predicate Dismissed(s: State, s': State, k: Key, now: nat) {
    && Live(s.executions, k) && k in s.signals
    && k in s'.signals && s'.signals[k] == s.signals[k] + [15]
    && if s.executions[k].status.Queued? then
         EndsWith(s', k, Canceled, 143, "execution canceled before start (sandbox termination)",
                  s.executions[k].message, now)
       else
         && k in s'.executions && s'.executions[k].status.Running? && k in s'.cancels
         && OfExec(k) in s'.feeds && !s'.feeds[OfExec(k)].doneClosed
  }

  /** What a termination leaves alone. */
  ghost predicate Spared(s: State, s': State, k: Key) {
    && Get(s'.executions, k) == Get(s.executions, k) && Get(s'.feeds, OfExec(k)) == Get(s.feeds, OfExec(k))
    && Get(s'.signals, k) == Get(s.signals, k)
  }

  lemma TerminateEach(s: State, id: Id, now: nat, cfg: Config, k: Key)
    requires Live(s.executions, k) ==> OfExec(k) in s.feeds && !s.feeds[OfExec(k)].doneClosed && k in s.signals
    requires Live(s.executions, k) && s.executions[k].status.Running? ==> s.executions[k].hasCancel
    ensures var s' := TerminateExecutions(s, id, now, cfg);
            if k.sandbox == id && Live(s.executions, k) then Dismissed(s, s', k, now) else Spared(s, s', k)
  {
    var doomed := k.sandbox == id && Live(s.executions, k);
    assert k in Doomed(s.executions, id) <==> doomed;
  }

  lemma SetSandboxKeeps(s: State, id: Id, status: SandboxStatus, text: string, now: nat, cfg: Config, k: Key)
    requires id in s.sandboxes
    ensures var s' := SetSandbox(s, id, status, text, now, cfg);
            && s'.executions == s.executions && s'.signals == s.signals
            && Get(s'.feeds, OfExec(k)) == Get(s.feeds, OfExec(k))
            && id in s'.sandboxes && s'.sandboxes[id].status == status
  {
    assert OfExec(k) != OfSandbox(id);
  }

  lemma MarkStoppingKeeps(s: State, id: Id, now: nat, cfg: Config, k: Key)
    requires id in s.sandboxes
    ensures var s' := MarkStopping(s, id, now, cfg);
            && s'.executions == s.executions && s'.signals == s.signals
            && Get(s'.feeds, OfExec(k)) == Get(s.feeds, OfExec(k))
            && id in s'.sandboxes && s'.sandboxes[id].status.Stopping?
  {
    if !s.sandboxes[id].status.Stopping? {
      SetSandboxKeeps(s, id, Stopping, "sandbox termination requested", now, cfg, k);
    }
  }

  lemma TerminateBeginEach(s: State, id: Id, now: nat, cfg: Config, k: Key)
    requires Inv(s, cfg) && id in s.sandboxes && !s.sandboxes[id].status.Stopped?
    ensures var s' := TerminateBegin(s, id, now, cfg);
            && id in s'.sandboxes && s'.sandboxes[id].status.Stopping?
            && if k.sandbox == id && Live(s.executions, k) then Dismissed(s, s', k, now) else Spared(s, s', k)
  {
    if Live(s.executions, k) {
      LiveState(s, k, cfg);
    }
    MarkStoppingKeeps(s, id, now, cfg, k);
    TerminateEach(MarkStopping(s, id, now, cfg), id, now, cfg, k);
  }

  /** The first section of a termination, in every run: the sandbox is stopping, each of its live executions is
      dismissed and every other execution is left alone. */
  lemma TerminationDismisses(states: seq<State>, ops: seq<Op>, cfg: Config, i: nat, k: Key)
    requires IsRun(states, ops, cfg) && i < |ops| && ops[i].OpTerminateBegin?
    ensures var s, s', id := states[i], states[i + 1], ops[i].id;
            if id in s.sandboxes && !s.sandboxes[id].status.Stopped? then
              && id in s'.sandboxes && s'.sandboxes[id].status.Stopping?
              && if k.sandbox == id && Live(s.executions, k) then Dismissed(s, s', k, ops[i].now) else Spared(s, s', k)
            else
              Spared(s, s', k) && s'.sandboxes == s.sandboxes
  {
    RunInv(states, ops, cfg, i);
    assert StepAt(states, ops, cfg, i);
    var s, id := states[i], ops[i].id;
    if id in s.sandboxes && !s.sandboxes[id].status.Stopped? {
      TerminateBeginEach(s, id, ops[i].now, cfg, k);
    }
  }

  /** The second section: after a failed backend call nothing has changed, and the sandbox stays as it was; after a
      successful one the sandbox, if it is still stored, is STOPPED and its trace is done, ending with that event. */
  lemma TerminationStops(states: seq<State>, ops: seq<Op>, cfg: Config, i: nat)
    requires IsRun(states, ops, cfg) && i < |ops| && ops[i].OpTerminateEnd?
    ensures var s, s', id := states[i], states[i + 1], ops[i].id;
            && (!ops[i].ok ==> s' == s.(terminating := s.terminating - multiset{id}))
            && (ops[i].ok && id in s.sandboxes ==>
                  && (id in s'.sandboxes ==>
                        s'.sandboxes[id] == if s.sandboxes[id].status.Stopped? then s.sandboxes[id]
                                            else s.sandboxes[id].(status := Stopped, updatedAt := ops[i].now))
                  && OfSandbox(id) in s.feeds && OfSandbox(id) in s'.feeds && s'.feeds[OfSandbox(id)].doneClosed
                  && s'.feeds[OfSandbox(id)].trace
                     == s.feeds[OfSandbox(id)].trace
                        + if s.sandboxes[id].status.Stopped? then [] else [SandboxEvent(Stopped, "sandbox terminated")])
  {
    RunInv(states, ops, cfg, i);
    assert StepAt(states, ops, cfg, i);
    assert SandboxInv(states[i], ops[i].id);
    if ops[i].id in states[i].sandboxes {
      StopTrace(states[i], ops[i].id, ops[i].now, cfg);
    }
  }

  lemma StopTrace(s: State, id: Id, now: nat, cfg: Config)
    requires id in s.sandboxes && OfSandbox(id) in s.feeds
    requires s.sandboxes[id].status.Stopped? ==> s.feeds[OfSandbox(id)].doneClosed
    ensures var s' := TerminateEnd(s, id, true, now, cfg);
            && (id in s'.sandboxes ==>
                  s'.sandboxes[id] == if s.sandboxes[id].status.Stopped? then s.sandboxes[id]
                                      else s.sandboxes[id].(status := Stopped, updatedAt := now))
            && OfSandbox(id) in s'.feeds && s'.feeds[OfSandbox(id)].doneClosed
            && s'.feeds[OfSandbox(id)].trace
               == s.feeds[OfSandbox(id)].trace
                  + if s.sandboxes[id].status.Stopped? then [] else [SandboxEvent(Stopped, "sandbox terminated")]
  {
    var s1 := s.(terminating := s.terminating - multiset{id});
    if s.sandboxes[id].status.Stopped? {
      PrunedSandbox(s1, now, cfg, id);
    } else {
      var stopped := SetSandbox(s1, id, Stopped, "sandbox terminated", now, cfg);
      PrunedSandbox(stopped.(feeds := Seal(stopped.feeds, OfSandbox(id))), now, cfg, id);
    }
  }

  lemma PrunedSandbox(s: State, now: nat, cfg: Config, id: Id)
    requires OfSandbox(id) in s.feeds
    ensures var s' := Prune(s, now, cfg);
            && OfSandbox(id) in s'.feeds && s'.feeds[OfSandbox(id)].trace == s.feeds[OfSandbox(id)].trace
            && (s.feeds[OfSandbox(id)].doneClosed ==> s'.feeds[OfSandbox(id)].doneClosed)
            && (id in s'.sandboxes ==> id in s.sandboxes && s'.sandboxes[id] == s.sandboxes[id])
  {
  }

  // ---- Creating and starting ----

  lemma CreatedSandbox(s: State, id: Id, backend: string, now: nat, cfg: Config)
    requires OfSandbox(id) !in s.feeds
    ensures var s' := CreateSandbox(s, id, backend, now, cfg);
            && id in s'.sandboxes && s'.sandboxes[id] == Sandbox(backend, Ready, None, false, now, now)
            && OfSandbox(id) in s'.feeds && !s'.feeds[OfSandbox(id)].doneClosed
            && s'.feeds[OfSandbox(id)].trace == [SandboxEvent(Ready, "sandbox created and ready")]
            && (forall j :: j in s'.sandboxes && j != id ==> j in s.sandboxes && s'.sandboxes[j] == s.sandboxes[j])
  {
    var sb, event := Sandbox(backend, Ready, None, false, now, now), SandboxEvent(Ready, "sandbox created and ready");
    var s1 := s.(sandboxes := s.sandboxes[id := sb],
                 feeds := s.feeds[OfSandbox(id) := Record(EmptyLog(), event, BoundsOf(OfSandbox(id), cfg))]);
    ReadySurvives(s1, now, cfg, id);
    forall j | j in Prune(s1, now, cfg).sandboxes ensures j in s1.sandboxes
        && Prune(s1, now, cfg).sandboxes[j] == s1.sandboxes[j]
    {
    }
  }

  /** Pruning leaves sandboxes that are not stopped alone, with their feeds. */
  lemma ReadySurvives(s: State, now: nat, cfg: Config, id: Id)
    requires id in s.sandboxes && !s.sandboxes[id].status.Stopped? && OfSandbox(id) in s.feeds
    ensures var s' := Prune(s, now, cfg);
            && id in s'.sandboxes && s'.sandboxes[id] == s.sandboxes[id]
            && OfSandbox(id) in s'.feeds && s'.feeds[OfSandbox(id)] == s.feeds[OfSandbox(id)]
  {
  }

  /** Pruning leaves live executions alone, with their feeds. */
  lemma LiveSurvives(s: State, now: nat, cfg: Config, k: Key)
    requires Live(s.executions, k) && OfExec(k) in s.feeds
    ensures var s' := Prune(s, now, cfg);
            && k in s'.executions && s'.executions[k] == s.executions[k] && s'.runners == s.runners
            && OfExec(k) in s'.feeds && s'.feeds[OfExec(k)] == s.feeds[OfExec(k)]
  {
  }

  /** A created sandbox is stored as READY on the backend it was asked for; its trace starts with that event. */
  lemma CreationStoresTheSandbox(states: seq<State>, ops: seq<Op>, cfg: Config, i: nat)
    requires IsRun(states, ops, cfg) && i < |ops| && ops[i].OpCreateSandbox?
    ensures var s, s', op := states[i], states[i + 1], ops[i];
            && op.id !in s.sandboxes && op.id in s'.sandboxes
            && s'.sandboxes[op.id] == Sandbox(op.backend, Ready, None, false, op.now, op.now)
            && OfSandbox(op.id) in s'.feeds && !s'.feeds[OfSandbox(op.id)].doneClosed
            && s'.feeds[OfSandbox(op.id)].trace == [SandboxEvent(Ready, "sandbox created and ready")]
            && (forall j :: j in s'.sandboxes && j != op.id ==> j in s.sandboxes && s'.sandboxes[j] == s.sandboxes[j])
  {
    RunInv(states, ops, cfg, i);
    assert StepAt(states, ops, cfg, i);
    assert SandboxInv(states[i], ops[i].id);
    CreatedSandbox(states[i], ops[i].id, ops[i].backend, ops[i].now, cfg);
  }

  /** A sandbox takes a new execution exactly when it is there, ready, on a known backend, and without a live execution
      and a download. */
  predicate Takes(s: State, id: Id, cfg: Config) {
    && id in s.sandboxes && s.sandboxes[id].status.Ready? && s.sandboxes[id].backend in cfg.backends
    && !HasLive(s.executions, id) && id !in s.downloads
  }

  /** The execution is stored as QUEUED, with its first event, and its runner has yet to start. */
  predicate Waits(s: State, k: Key, kind: Kind) {
    && k in s.executions && s.executions[k].kind == kind && s.executions[k].status == Queued
    && s.executions[k].startedAt.None? && s.executions[k].finishedAt.None?
    && OfExec(k) in s.feeds && s.feeds[OfExec(k)].trace == [Notice(Queued, "execution queued")]
    && !s.feeds[OfExec(k)].doneClosed && k in s.runners && s.runners[k] == Spawned
  }

  lemma EnqueuedState(s: State, k: Key, kind: Kind, now: nat, cfg: Config)
    requires CreateVerdict(s, k.sandbox, cfg).Accepted?
    ensures Waits(CreateExecution(s, k, kind, now, cfg), k, kind)
  {
    LiveSurvives(Enqueued(s, k, kind, now, cfg), now, cfg, k);
  }

  lemma RefusedState(s: State, k: Key, kind: Kind, now: nat, cfg: Config)
    requires !CreateVerdict(s, k.sandbox, cfg).Accepted?
    ensures var s' := CreateExecution(s, k, kind, now, cfg);
            s'.executions == s.executions && s'.feeds == s.feeds && s'.runners == s.runners
  {
  }

  /** A new execution is stored as QUEUED, with a runner on its way, exactly when its sandbox takes one; a refused
      request leaves executions and events as they were. */
  lemma ExecutionIsTakenWhen(states: seq<State>, ops: seq<Op>, cfg: Config, i: nat)
    requires IsRun(states, ops, cfg) && i < |ops| && ops[i].OpCreateExecution?
    ensures var s, s', k := states[i], states[i + 1], ops[i].key;
            if Takes(s, k.sandbox, cfg) then Waits(s', k, ops[i].kind)
            else
              k !in s'.executions && s'.executions == s.executions && s'.feeds == s.feeds && s'.runners == s.runners
  {
    var s, k := states[i], ops[i].key;
    RunInv(states, ops, cfg, i);
    assert StepAt(states, ops, cfg, i);
    VerdictIsTakes(states, ops, cfg, i, k.sandbox);
    if CreateVerdict(s, k.sandbox, cfg).Accepted? {
      EnqueuedState(s, k, ops[i].kind, ops[i].now, cfg);
    } else {
      RefusedState(s, k, ops[i].kind, ops[i].now, cfg);
      assert KeyInv(s, k, cfg);
    }
  }

  lemma VerdictIsTakes(states: seq<State>, ops: seq<Op>, cfg: Config, i: nat, id: Id)
    requires IsRun(states, ops, cfg) && i < |states|
    ensures CreateVerdict(states[i], id, cfg).Accepted? <==> Takes(states[i], id, cfg)
  {
    var s := states[i];
    if id in s.sandboxes && s.sandboxes[id].status.Ready? && s.sandboxes[id].backend in cfg.backends {
      StalePointersNeverBlock(states, ops, cfg, i, id);
    }
  }

  lemma StartedState(s: State, k: Key, now: nat, cfg: Config)
    requires k in s.executions && OfExec(k) in s.feeds
    ensures var s' := Started(s, k, now, cfg);
            && k in s'.executions && s'.executions[k].status == Running && s'.executions[k].startedAt == Some(now)
            && OfExec(k) in s'.feeds && s'.feeds[OfExec(k)].doneClosed == s.feeds[OfExec(k)].doneClosed
            && s'.feeds[OfExec(k)].trace == s.feeds[OfExec(k)].trace + [Notice(Running, "execution started")]
            && k in s'.runners && s'.runners[k] == InBackend && s'.sandboxes == s.sandboxes
  {
  }

  /** A runner that finds its execution still queued starts it; one that finds it ended or gone does nothing. */
  lemma RunnerStartsTheQueued(states: seq<State>, ops: seq<Op>, cfg: Config, i: nat)
    requires IsRun(states, ops, cfg) && i < |ops| && ops[i].OpBeginRun?
    ensures var s, s', k := states[i], states[i + 1], ops[i].key;
            if k in s.executions && s.executions[k].status.Queued? then
              && k in s'.executions && s'.executions[k].status == Running
              && s'.executions[k].startedAt == Some(ops[i].now)
              && OfExec(k) in s.feeds && OfExec(k) in s'.feeds && !s'.feeds[OfExec(k)].doneClosed
              && s'.feeds[OfExec(k)].trace == s.feeds[OfExec(k)].trace + [Notice(Running, "execution started")]
              && k in s'.runners && s'.runners[k] == InBackend
            else s' == s.(runners := s.runners[k := RunnerDone])
  {
    var s, k := states[i], ops[i].key;
    RunInv(states, ops, cfg, i);
    assert StepAt(states, ops, cfg, i);
    assert KeyInv(s, k, cfg);
    if Live(s.executions, k) {
      LiveExecutionsKeepTheirSandbox(states, ops, cfg, i, k);
      LiveState(s, k, cfg);
      StartedState(s, k, ops[i].now, cfg);
      assert BeginRun(s, k, ops[i].now, cfg) == Started(s, k, ops[i].now, cfg);
    }
  }

  /** The attach callback is noted for a live execution, and too late for any other. */
  lemma AttachIsNoted(states: seq<State>, ops: seq<Op>, cfg: Config, i: nat)
    requires IsRun(states, ops, cfg) && i < |ops| && ops[i].OpAttach?
    ensures var s, s', k := states[i], states[i + 1], ops[i].key;
            if k in s.executions && (s.executions[k].status.Queued? || s.executions[k].status.Running?) then
              s' == s.(executions := s.executions[k := s.executions[k].(hasAttach := true)])
            else s' == s
  {
    assert StepAt(states, ops, cfg, i);
  }

  // ---- What becomes of the sandbox and of output ----

  lemma ReturnedSandbox(s: State, k: Key, result: RunResult, streaming: bool, now: nat, cfg: Config)
    requires k in s.executions && k.sandbox in s.sandboxes && s.sandboxes[k.sandbox].active == Some(k.exec)
    ensures var s' := FinishRun(s, k, result, streaming, now, cfg);
            k.sandbox in s'.sandboxes ==>
              s'.sandboxes[k.sandbox] == s.sandboxes[k.sandbox].(active := None, updatedAt := now)
  {
    var s1 := Collected(s, k, result, streaming, now, cfg);
    CollectedSandboxes(s, k, result, streaming, now, cfg);
    var (status, code) := RunOutcome(s, k, result);
    PrunedSandboxes(Finalize(s1, k, status, code, ResultMessage(result), "", now, cfg), now, cfg, k.sandbox);
  }

  lemma PrunedSandboxes(s: State, now: nat, cfg: Config, id: Id)
    ensures var s' := Prune(s, now, cfg);
            id in s'.sandboxes ==> id in s.sandboxes && s'.sandboxes[id] == s.sandboxes[id]
  {
  }

  lemma CollectedSandboxes(s: State, k: Key, result: RunResult, streaming: bool, now: nat, cfg: Config)
    requires k in s.executions
    ensures Collected(s, k, result, streaming, now, cfg).sandboxes == RunReturned(s, k, now).sandboxes
  {
  }

  /** A run that ends gives its sandbox back: no execution is active there any more, as of now. */
  lemma RunGivesBackTheSandbox(states: seq<State>, ops: seq<Op>, cfg: Config, i: nat)
    requires IsRun(states, ops, cfg) && i < |ops| && ops[i].OpFinishRun?
    ensures var s, s', id := states[i], states[i + 1], ops[i].key.sandbox;
            && id in s.sandboxes
            && (id in s'.sandboxes ==>
                  s'.sandboxes[id] == s.sandboxes[id].(active := None, updatedAt := ops[i].now))
  {
    RunInv(states, ops, cfg, i);
    assert StepAt(states, ops, cfg, i);
    InFlightState(states[i], ops[i].key, cfg);
    assert KeyInv(states[i], ops[i].key, cfg);
    ReturnedSandbox(states[i], ops[i].key, ops[i].result, ops[i].streaming, ops[i].now, cfg);
  }

  lemma OutputEvent(s: State, k: Key, isStdout: bool, chunk: string, cfg: Config)
    requires Live(s.executions, k) && OfExec(k) in s.feeds && chunk != ""
    ensures var s' := OutputChunk(s, k, isStdout, chunk, cfg);
            && OfExec(k) in s'.feeds
            && s'.feeds[OfExec(k)].trace
               == s.feeds[OfExec(k)].trace
                  + [ExecEvent(s.executions[k].status, if isStdout then Stdout(chunk) else Stderr(chunk))]
  {
  }

  /** Each chunk the backend reports for a live execution becomes one event; empty ones and late ones become none. */
  lemma ChunksBecomeEvents(states: seq<State>, ops: seq<Op>, cfg: Config, i: nat)
    requires IsRun(states, ops, cfg) && i < |ops| && ops[i].OpOutput?
    ensures var s, s', op := states[i], states[i + 1], ops[i];
            if Live(s.executions, op.key) && op.chunk != "" then
              && OfExec(op.key) in s.feeds && OfExec(op.key) in s'.feeds
              && s'.feeds[OfExec(op.key)].trace
                 == s.feeds[OfExec(op.key)].trace
                    + [ExecEvent(s.executions[op.key].status,
                                 if op.isStdout then Stdout(op.chunk) else Stderr(op.chunk))]
            else s' == s
  {
    RunInv(states, ops, cfg, i);
    assert StepAt(states, ops, cfg, i);
    if Live(states[i].executions, ops[i].key) && ops[i].chunk != "" {
      LiveState(states[i], ops[i].key, cfg);
      OutputEvent(states[i], ops[i].key, ops[i].isStdout, ops[i].chunk, cfg);
    }
  }
}

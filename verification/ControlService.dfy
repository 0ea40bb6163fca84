/** The control service as the object it is: maps updated under one mutex. Every critical section is a method,
    proved to be the corresponding step of the model. The object's history is a run of the model, so everything
    proved of runs holds of it. */
module ControlService {
  import opened Seqs
  import opened Text
  import opened EventLog
  import opened Followers
  import opened Retention
  import opened Pruning
  import opened ServiceStore
  import opened ServiceInvariant
  import opened ServiceTheorems
  import opened ServiceModel

  /** Subscribers are registered under channels that exist. */
  ghost predicate Wired(feeds: Feeds) {
    forall t :: t in feeds ==> feeds[t].subs <= feeds[t].chans.Keys
  }

  ghost predicate Named(executions: map<Key, Execution>) {
    forall k :: k in executions ==> SlashFree(k.sandbox)
  }

  ghost predicate NamedSandboxes(sandboxes: map<Id, Sandbox>) {
    forall id :: id in sandboxes ==> SlashFree(id)
  }

  lemma DistinctExecutionNames(executions: map<Key, Execution>, times: map<Key, nat>)
    requires Named(executions) && times.Keys <= executions.Keys
    ensures DistinctNames(times, ExecutionKey)
  {
    forall a, b | a in times && b in times && ExecutionKey(a) == ExecutionKey(b) ensures a == b {
      ExecutionKeyInjective(a, b);
    }
  }

  /** The executions of a sandbox whose cancel function a terminate has to call. */
  function Cancellable(executions: map<Key, Execution>, id: Id): set<Key> {
    set k | k in Doomed(executions, id) && !executions[k].status.Queued? && executions[k].hasCancel
  }

  class Service {
    const cfg: Config
    var sandboxes: map<Id, Sandbox>
    var executions: map<Key, Execution>
    var sessions: map<Id, Session>
    var attached: set<Key>
    var feeds: Feeds
    /** Goroutines, calls in flight and followers around the service. */
    ghost var around: State
    ghost var states: seq<State>
    ghost var ops: seq<Op>

    ghost function View(): State
      reads this
    {
      around.(sandboxes := sandboxes, executions := executions, sessions := sessions, attached := attached,
              feeds := feeds)
    }

    ghost predicate Tidy()
      reads this
    {
      Wired(feeds) && Named(executions) && NamedSandboxes(sandboxes)
    }

    /** The service's history is a run of the model and has led to its present state. */
    ghost predicate Valid()
      reads this
    {
      IsRun(states, ops, cfg) && states[|ops|] == View()
    }

    constructor (cfg: Config)
      ensures Valid() && View() == Initial() && this.cfg == cfg
    {
      this.cfg := cfg;
      sandboxes, executions, sessions, attached, feeds := map[], map[], map[], {}, map[];
      around := Initial();
      states, ops := [Initial()], [];
      new;
      EmptyRun(cfg);
    }

    // ---- Inside a critical section ----

    method RecordEvent(t: Topic, e: Event)
      requires Tidy()
      modifies this`feeds
      ensures Tidy() && feeds == Emit(old(feeds), t, e, cfg)
    {
      if t in feeds {
        var l := Broadcast(feeds[t], e, BoundsOf(t, cfg));
        feeds := feeds[t := l];
      }
    }

    method CloseDoneChannel(t: Topic)
      requires Tidy()
      modifies this`feeds
      ensures Tidy() && feeds == Seal(old(feeds), t)
    {
      if t in feeds {
        feeds := feeds[t := CloseDone(feeds[t])];
      }
    }

    method ClearInteractiveOf(k: Key)
      modifies this`sessions, this`attached
      ensures View() == ServiceModel.ClearInteractive(old(View()), {k})
    {
      attached := attached - {k};
      sessions := ForgetSessions(sessions, k);
    }

    /** finalizeExecutionInternalLocked without its pruning. */
    method FinalizeExecution(k: Key, status: Status, code: int, message: string, exitMessage: string, now: nat)
      requires Tidy() && k in executions
      modifies this`executions, this`feeds, this`sessions, this`attached
      ensures Tidy() && View() == Finalize(old(View()), k, status, code, message, exitMessage, now, cfg)
    {
      executions := executions[k := ServiceModel.Finished(executions[k], status, code, message, now)];
      RecordEvent(OfExec(k), ExitEvent(status, code, message, exitMessage));
      CloseDoneChannel(OfExec(k));
      ClearInteractiveOf(k);
    }

    // ---- Pruning ----

    method DropExecution(k: Key)
      requires Tidy() && k in executions
      modifies this`executions, this`feeds, this`sessions, this`attached
      ensures Tidy() && View() == DropExecutions(old(View()), {k})
    {
      assert Topics({k}) == {OfExec(k)};
      if OfExec(k) in feeds {
        var l := CloseFeed(feeds[OfExec(k)]);
        feeds := feeds[OfExec(k) := l];
      }
      assert feeds == DropFeeds(old(feeds), Topics({k}));
      ClearInteractiveOf(k);
      executions := executions - {k};
      assert executions == map j | j in old(executions) && j !in {k} :: old(executions)[j];
    }

    method DropSandbox(id: Id)
      requires Tidy() && id in sandboxes
      modifies this`sandboxes, this`feeds
      ensures Tidy() && View() == DropSandboxes(old(View()), {id})
    {
      assert (set j | j in {id} :: OfSandbox(j)) == {OfSandbox(id)};
      if OfSandbox(id) in feeds {
        var l := CloseFeed(feeds[OfSandbox(id)]);
        feeds := feeds[OfSandbox(id) := l];
      }
      assert feeds == DropFeeds(old(feeds), {OfSandbox(id)});
      sandboxes := sandboxes - {id};
      assert sandboxes == map j | j in old(sandboxes) && j !in {id} :: old(sandboxes)[j];
    }

    method DropTheseExecutions(gone: set<Key>)
      requires Tidy() && gone <= executions.Keys
      modifies this`executions, this`feeds, this`sessions, this`attached
      ensures Tidy() && View() == DropExecutions(old(View()), gone)
    {
      ghost var s0 := View();
      ghost var done: set<Key> := {};
      var rest := gone;
      DropNoExecutions(s0);
      while rest != {}
        invariant done + rest == gone && done !! rest && rest <= executions.Keys
        invariant Tidy() && View() == DropExecutions(s0, done)
        decreases rest
      {
        var k :| k in rest;
        rest := rest - {k};
        DropExecution(k);
        DropExecutionsOneMore(s0, done, k);
        done := done + {k};
      }
      assert done == gone;
    }

    method DropTheseSandboxes(gone: set<Id>)
      requires Tidy() && gone <= sandboxes.Keys
      modifies this`sandboxes, this`feeds
      ensures Tidy() && View() == DropSandboxes(old(View()), gone)
    {
      ghost var s0 := View();
      ghost var done: set<Id> := {};
      var rest := gone;
      DropNoSandboxes(s0);
      while rest != {}
        invariant done + rest == gone && done !! rest && rest <= sandboxes.Keys
        invariant Tidy() && View() == DropSandboxes(s0, done)
        decreases rest
      {
        var id :| id in rest;
        rest := rest - {id};
        DropSandbox(id);
        DropSandboxesOneMore(s0, done, id);
        done := done + {id};
      }
      assert done == gone;
    }

    /** Expired executions go, and of the other finished ones the oldest over the limit. */
    method PruneExecutions(now: nat)
      requires Tidy()
      modifies this`executions, this`feeds, this`sessions, this`attached
      ensures Tidy() && View() == ServiceModel.PruneExecutions(old(View()), now, cfg)
    {
      var expired, candidates := SortOutExecutions(executions, now, cfg);
      DistinctExecutionNames(executions, candidates);
      var drop := OldestOverLimit(candidates, ExecutionKey, cfg.finishedLimit);
      ExecutionsToDrop(executions, expired, now, cfg);
      DropTheseExecutions(expired + drop);
    }

    method PruneSandboxes(now: nat)
      requires Tidy()
      modifies this`sandboxes, this`feeds
      ensures Tidy() && View() == ServiceModel.PruneSandboxes(old(View()), now, cfg)
    {
      var expired, candidates := SortOutSandboxes(sandboxes, executions, now, cfg, View());
      var drop := OldestOverLimit(candidates, IdName, cfg.stoppedLimit);
      SandboxesToDrop(View(), expired, now, cfg);
      DropTheseSandboxes(expired + drop);
    }

    method PruneState(now: nat)
      requires Tidy()
      modifies this`sandboxes, this`executions, this`feeds, this`sessions, this`attached
      ensures Tidy() && View() == ServiceModel.Prune(old(View()), now, cfg)
    {
      PruneExecutions(now);
      PruneSandboxes(now);
    }

    // ---- Critical sections ----

    /** CreateSandbox, after the backend has provisioned it. */
    method CreateSandboxLocked(id: Id, backend: string, now: nat)
      requires Tidy() && SlashFree(id)
      modifies this`sandboxes, this`executions, this`feeds, this`sessions, this`attached
      ensures Tidy() && View() == ServiceModel.CreateSandbox(old(View()), id, backend, now, cfg)
    {
      AddSandbox(id, backend, now);
      PruneState(now);
    }

    method AddSandbox(id: Id, backend: string, now: nat)
      requires Tidy() && SlashFree(id)
      modifies this`sandboxes, this`feeds
      ensures Tidy() && sandboxes == old(sandboxes)[id := Sandbox(backend, Ready, None, false, now, now)]
      ensures var event := SandboxEvent(Ready, "sandbox created and ready");
              feeds == old(feeds)[OfSandbox(id) := Record(EmptyLog(), event, BoundsOf(OfSandbox(id), cfg))]
    {
      sandboxes := sandboxes[id := Sandbox(backend, Ready, None, false, now, now)];
      feeds := feeds[OfSandbox(id) := EmptyLog()];
      RecordEvent(OfSandbox(id), SandboxEvent(Ready, "sandbox created and ready"));
    }

    method SetSandboxStatus(id: Id, status: SandboxStatus, text: string, now: nat)
      requires Tidy() && id in sandboxes
      modifies this`sandboxes, this`feeds
      ensures Tidy() && View() == SetSandbox(old(View()), id, status, text, now, cfg)
    {
      sandboxes := sandboxes[id := sandboxes[id].(status := status, updatedAt := now)];
      RecordEvent(OfSandbox(id), SandboxEvent(status, text));
    }

    /** One live execution is told to stop; a queued one ends at once. */
    method TerminateExecution(k: Key, now: nat) returns (call: bool)
      requires Tidy() && k in executions
      modifies this`executions, this`feeds, this`sessions, this`attached
      ensures Tidy() && executions == old(executions)[k := Terminated(old(executions)[k], now)]
      ensures feeds == if OfExec(k) in old(feeds)
                       then old(feeds)[OfExec(k) := TerminatedFeed(old(feeds)[OfExec(k)], old(executions)[k],
                                                                   BoundsOf(OfExec(k), cfg))]
                       else old(feeds)
      ensures sessions == if !old(executions)[k].status.Queued? then old(sessions)
                          else map i | i in old(sessions) && old(sessions)[i].key != k :: old(sessions)[i]
      ensures attached == if old(executions)[k].status.Queued? then old(attached) - {k} else old(attached)
      ensures call <==> !old(executions)[k].status.Queued? && old(executions)[k].hasCancel
    {
      var e := executions[k];
      executions := executions[k := e.(cancelRequested := true, cancelSignal := TERM_SIGNAL)];
      RecordEvent(OfExec(k), ExecEvent(e.status, Message(TERM_TEXT)));
      call := false;
      if e.status.Queued? {
        FinalizeExecution(k, Canceled, CancelExitCode(TERM_SIGNAL), e.message, TERM_EXIT, now);
      } else if e.hasCancel {
        call := true;
      }
    }

    /** The loop of TerminateSandbox over the executions; `calls` are the cancel functions to call afterwards. */
    method TerminateLoop(id: Id, now: nat) returns (calls: set<Key>)
      requires Tidy()
      modifies this`executions, this`feeds, this`sessions, this`attached
      ensures Tidy()
      ensures TerminatedTables(old(View()), Doomed(old(executions), id), now, executions, sessions, attached)
      ensures TerminatedFeeds(old(View()), Doomed(old(executions), id), cfg, feeds)
      ensures calls == Cancellable(old(executions), id)
    {
      ghost var s0 := View();
      var all, rest := executions, executions.Keys;
      ghost var done: set<Key> := {};
      calls := {};
      NothingTerminated(s0, now, cfg);
      while rest != {}
        invariant rest <= all.Keys && done == set k | k in all && k !in rest && k.sandbox == id && !Final(all[k].status)
        invariant Tidy() && TerminatedTables(s0, done, now, executions, sessions, attached)
        invariant TerminatedFeeds(s0, done, cfg, feeds)
        invariant calls == set k | k in done && !all[k].status.Queued? && all[k].hasCancel
        decreases rest
      {
        var k :| k in rest;
        rest := rest - {k};
        assert k !in done && executions[k] == all[k];
        if k.sandbox == id && !Final(executions[k].status) {
          TablesOneMore(s0, done, k, now, executions, sessions, attached);
          FeedsOneMore(s0, done, k, cfg, feeds);
          var call := TerminateExecution(k, now);
          if call {
            calls := calls + {k};
          }
          done := done + {k};
        }
      }
      assert done == Doomed(all, id);
    }

    method TerminateLive(id: Id, now: nat) returns (calls: set<Key>)
      requires Tidy()
      modifies this`executions, this`feeds, this`sessions, this`attached, this`around
      ensures Tidy() && View() == TerminateExecutions(old(View()), id, now, cfg)
      ensures calls == Cancellable(old(executions), id)
    {
      ghost var doomed := Doomed(executions, id);
      calls := TerminateLoop(id, now);
      around := around.(cancels := around.cancels + multiset(calls),
                        signals := map k | k in around.signals ::
                          if k in doomed then around.signals[k] + [TERM_SIGNAL] else around.signals[k]);
    }

    /** First critical section of TerminateSandbox. */
    method BeginTerminateLocked(id: Id, now: nat) returns (known: bool, calls: set<Key>)
      requires Tidy()
      modifies this`sandboxes, this`executions, this`feeds, this`sessions, this`attached, this`around
      ensures Tidy() && View() == TerminateBegin(old(View()), id, now, cfg)
      ensures known <==> id in old(sandboxes)
      ensures calls == if known && !old(sandboxes)[id].status.Stopped? then Cancellable(old(executions), id) else {}
    {
      calls := {};
      known := id in sandboxes;
      if !known {
        return;
      }
      if !sandboxes[id].status.Stopped? {
        if !sandboxes[id].status.Stopping? {
          SetSandboxStatus(id, Stopping, "sandbox termination requested", now);
        }
        assert View() == MarkStopping(old(View()), id, now, cfg);
        calls := TerminateLive(id, now);
      }
      around := around.(terminating := around.terminating + multiset{id});
    }

    /** Second critical section of TerminateSandbox; there is none if the backend's own termination failed. */
    method EndTerminateLocked(id: Id, ok: bool, now: nat)
      requires Tidy()
      modifies this`sandboxes, this`executions, this`feeds, this`sessions, this`attached, this`around
      ensures Tidy() && View() == TerminateEnd(old(View()), id, ok, now, cfg)
    {
      around := around.(terminating := around.terminating - multiset{id});
      if !ok {
        return;
      }
      if id in sandboxes && !sandboxes[id].status.Stopped? {
        SetSandboxStatus(id, Stopped, "sandbox terminated", now);
        CloseDoneChannel(OfSandbox(id));
      }
      PruneState(now);
    }

    method AddExecution(k: Key, kind: Kind)
      requires Tidy() && SlashFree(k.sandbox)
      modifies this`executions, this`feeds
      ensures Tidy() && executions == old(executions)[k := NewExecution(kind)]
      ensures feeds == old(feeds)[OfExec(k) := Record(EmptyLog(), ExecEvent(Queued, Message("execution queued")),
                                                      BoundsOf(OfExec(k), cfg))]
    {
      executions := executions[k := NewExecution(kind)];
      feeds := feeds[OfExec(k) := EmptyLog()];
      RecordEvent(OfExec(k), ExecEvent(Queued, Message("execution queued")));
    }

    method Enqueue(k: Key, kind: Kind, now: nat)
      requires Tidy() && k.sandbox in sandboxes
      modifies this`sandboxes, this`executions, this`feeds, this`around
      ensures Tidy() && View() == Enqueued(old(View()), k, kind, now, cfg)
    {
      sandboxes := sandboxes[k.sandbox := sandboxes[k.sandbox].(active := Some(k.exec), updatedAt := now)];
      AddExecution(k, kind);
      around := around.(runners := around.runners[k := Spawned], signals := around.signals[k := []]);
    }

    /** CreateExecution: a stale active pointer is cleared before the download check. */
    method CreateExecutionLocked(k: Key, kind: Kind, now: nat) returns (v: Verdict)
      requires Tidy()
      modifies this`sandboxes, this`executions, this`feeds, this`sessions, this`attached, this`around
      ensures Tidy() && View() == ServiceModel.CreateExecution(old(View()), k, kind, now, cfg)
      ensures v == old(CreateVerdict(View(), k.sandbox, cfg))
    {
      v := CheckCreate(sandboxes, executions, k.sandbox, cfg, View());
      if v.Accepted? {
        Enqueue(k, kind, now);
        PruneState(now);
      } else if v.Busy? {
        var sb := sandboxes[k.sandbox];
        if !(sb.active.Some? && Key(k.sandbox, sb.active.value) in executions
             && !Final(executions[Key(k.sandbox, sb.active.value)].status)) {
          sandboxes := sandboxes[k.sandbox := sb.(active := None)];
        }
      }
    }

    /** First critical section of runExecution for an execution whose sandbox is ready. */
    method StartRun(k: Key, now: nat)
      requires Tidy() && k in executions
      modifies this`executions, this`feeds, this`around
      ensures Tidy() && View() == Started(old(View()), k, now, cfg)
    {
      executions := executions[k := executions[k].(status := Running, startedAt := Some(now), hasCancel := true)];
      RecordEvent(OfExec(k), ExecEvent(Running, Message("execution started")));
      around := around.(runners := around.runners[k := InBackend]);
    }

    /** The run ends before it starts. */
    method QuitRun(k: Key, status: Status, code: int, exitMessage: string, now: nat)
      requires Tidy() && k in executions
      modifies this`sandboxes, this`executions, this`feeds, this`sessions, this`attached, this`around
      ensures Tidy()
      ensures var quit := old(View()).(runners := old(View()).runners[k := RunnerDone]);
              View() == ServiceModel.Prune(Finalize(quit, k, status, code, old(executions)[k].message, exitMessage,
                                                    now, cfg), now, cfg)
    {
      around := around.(runners := around.runners[k := RunnerDone]);
      FinalizeExecution(k, status, code, executions[k].message, exitMessage, now);
      PruneState(now);
    }

    /** First critical section of runExecution; `go` when the backend is to be called. */
    method EnterRunLocked(k: Key, now: nat) returns (go: bool)
      requires Tidy()
      modifies this`sandboxes, this`executions, this`feeds, this`sessions, this`attached, this`around
      ensures Tidy() && View() == BeginRun(old(View()), k, now, cfg)
      ensures go <==>
                && Live(old(executions), k) && k.sandbox in old(sandboxes) && old(sandboxes)[k.sandbox].status.Ready?
                && old(sandboxes)[k.sandbox].backend in cfg.backends
    {
      go := false;
      if k !in executions || Final(executions[k].status) {
        around := around.(runners := around.runners[k := RunnerDone]);
      } else if k.sandbox !in sandboxes {
        QuitRun(k, Failed, 1, "sandbox no longer exists", now);
      } else if !sandboxes[k.sandbox].status.Ready? {
        QuitRun(k, Canceled, CancelExitCode(executions[k].cancelSignal), "sandbox is not ready", now);
      } else if sandboxes[k.sandbox].backend !in cfg.backends {
        QuitRun(k, Failed, 1, "unknown backend", now);
      } else {
        StartRun(k, now);
        go := true;
      }
    }

    /** appendExecutionStdoutLocked and appendExecutionStderrLocked. */
    method AppendText(k: Key, isStdout: bool, status: Status, chunk: string)
      requires Tidy() && k in executions
      modifies this`executions, this`feeds
      ensures Tidy() && View() == AppendOutput(old(View()), k, isStdout, status, chunk, cfg)
    {
      if chunk != "" {
        executions := executions[k := WithOutput(executions[k], isStdout, chunk, cfg.outputLimit)];
        RecordEvent(OfExec(k), ExecEvent(status, OutputPayload(isStdout, chunk)));
      }
    }

    method ReplaceText(k: Key, isStdout: bool, status: Status, text: string)
      requires Tidy() && k in executions
      modifies this`executions, this`feeds
      ensures Tidy() && View() == ReplaceOutput(old(View()), k, isStdout, status, text, cfg)
    {
      if text != "" {
        executions := executions[k := WithReplaced(executions[k], isStdout, text, cfg.outputLimit)];
        RecordEvent(OfExec(k), ExecEvent(status, OutputPayload(isStdout, text)));
      }
    }

    /** The output callback of a running backend call. */
    method OnOutputLocked(k: Key, isStdout: bool, chunk: string)
      requires Tidy()
      modifies this`executions, this`feeds
      ensures Tidy() && View() == OutputChunk(old(View()), k, isStdout, chunk, cfg)
    {
      if k in executions && !Final(executions[k].status) {
        AppendText(k, isStdout, executions[k].status, chunk);
      }
    }

    /** setExecutionAttachIO; a call for an execution that has ended is ignored. */
    method OnAttachLocked(k: Key)
      modifies this`executions
      ensures View() == SetAttach(old(View()), k)
    {
      if k in executions && !Final(executions[k].status) {
        executions := executions[k := executions[k].(hasAttach := true)];
      }
    }

    method MergeText(k: Key, isStdout: bool, buffered: string, streaming: bool)
      requires Tidy() && k in executions
      modifies this`executions, this`feeds
      ensures Tidy() && View() == MergeOne(old(View()), k, isStdout, buffered, streaming, cfg)
    {
      var retained := if isStdout then executions[k].stdout else executions[k].stderr;
      var delta := if streaming then BufferedResultDelta(retained, buffered, cfg.outputLimit) else Append(buffered);
      match delta
      case Append(text) => AppendText(k, isStdout, Running, text);
      case Replace(text) => ReplaceText(k, isStdout, Running, text);
    }

    method TakeResult(k: Key, code: int, message: string, out: string, err: string, streaming: bool)
      requires Tidy() && k in executions
      modifies this`executions, this`feeds
      ensures Tidy() && View() == WithResult(old(View()), k, code, message, out, err, streaming, cfg)
    {
      executions := executions[k := executions[k].(message := message)];
      MergeText(k, true, out, streaming);
      MergeText(k, false, err, streaming);
      if code != 0 && !Blank(message) && !Contains(executions[k].stderr, message) {
        AppendText(k, false, Running, message + "\n");
      }
    }

    method ReturnRun(k: Key, now: nat)
      requires Tidy() && k in executions
      modifies this`sandboxes, this`executions, this`around
      ensures Tidy() && View() == RunReturned(old(View()), k, now)
    {
      if k.sandbox in sandboxes && sandboxes[k.sandbox].active == Some(k.exec) {
        sandboxes := sandboxes[k.sandbox := sandboxes[k.sandbox].(active := None, updatedAt := now)];
      }
      executions := executions[k := executions[k].(hasCancel := false, hasAttach := false)];
      around := around.(runners := around.runners[k := RunnerDone]);
    }

    method CollectResult(k: Key, result: RunResult, streaming: bool, canceled: bool, now: nat)
      requires Tidy() && k in executions && canceled == (k in around.ctxCanceled)
      modifies this`sandboxes, this`executions, this`feeds, this`around
      ensures Tidy() && View() == Collected(old(View()), k, result, streaming, now, cfg)
    {
      var e := executions[k];
      ReturnRun(k, now);
      match result
      case RunFailed(error) =>
        if !Blank(error) {
          AppendText(k, false, RunErrorStatus(e, if canceled then CanceledErr else NoErr).0, error + "\n");
        }
      case RunOk(exitCode, message, out, err) => TakeResult(k, exitCode, message, out, err, streaming);
    }

    /** Second critical section of runExecution; `canceled` is the run context's state. */
    method EndRunLocked(k: Key, result: RunResult, streaming: bool, canceled: bool, now: nat)
      requires Tidy() && canceled == (k in around.ctxCanceled)
      modifies this`sandboxes, this`executions, this`feeds, this`sessions, this`attached, this`around
      ensures Tidy() && View() == FinishRun(old(View()), k, result, streaming, now, cfg)
    {
      if k !in executions {
        around := around.(runners := around.runners[k := RunnerDone]);
        return;
      }
      var outcome := match result
        case RunFailed(_) => RunErrorStatus(executions[k], if canceled then CanceledErr else NoErr)
        case RunOk(exitCode, _, _, _) => CompletedStatus(executions[k], exitCode);
      CollectResult(k, result, streaming, canceled, now);
      FinalizeExecution(k, outcome.0, outcome.1, ResultMessage(result), "", now);
      PruneState(now);
    }

    method NoteCancel(k: Key, signal: int)
      requires Tidy() && k in executions
      modifies this`executions, this`feeds, this`around
      ensures Tidy() && View() == CancelNoted(old(View()), k, signal, cfg)
    {
      var e := executions[k];
      executions := executions[k := e.(cancelRequested := true, cancelSignal := signal)];
      RecordEvent(OfExec(k), ExecEvent(e.status, Message("cancel requested")));
      around := around.(signals := if k in around.signals then around.signals[k := around.signals[k] + [signal]]
                        else around.signals);
    }

    /** CancelExecution; `call` says that the run's cancel function is to be called once the lock is released. */
    method CancelExecutionLocked(k: Key, signal: int, now: nat) returns (accepted: bool, call: bool)
      requires Tidy()
      modifies this`sandboxes, this`executions, this`feeds, this`sessions, this`attached, this`around
      ensures Tidy() && View() == Cancel(old(View()), k, signal, now, cfg)
      ensures accepted <==> Live(old(executions), k)
      ensures call <==> accepted && old(executions)[k].status.Running? && old(executions)[k].hasCancel
    {
      accepted, call := k in executions && !Final(executions[k].status), false;
      if !accepted {
        return;
      }
      var e, n := executions[k], NormalSignal(signal);
      NoteCancel(k, n);
      if e.status.Queued? {
        FinalizeExecution(k, Canceled, CancelExitCode(n), e.message, "execution canceled before start", now);
        PruneState(now);
      } else if e.hasCancel {
        call := true;
        around := around.(cancels := around.cancels + multiset{k});
      }
    }

    // ---- Interactive sessions and downloads ----

    method OpenInteractiveLocked(id: Id, k: Key, token: string, ttl: nat, now: nat) returns (granted: bool)
      modifies this`sessions, this`around
      ensures View() == OpenSession(old(View()), id, k, token, ttl, now, cfg)
      ensures granted <==> CanOpen(old(View()), k, now, cfg)
    {
      if !cfg.transport || k !in executions || !executions[k].kind.Interactive? || Final(executions[k].status) {
        return false;
      }
      sessions := ForgetExpired(sessions, now);
      if k in attached {
        return false;
      }
      var pending := FindPending(sessions, k);
      if pending {
        return false;
      }
      sessions := sessions[id := Session(k, token, now + ttl)];
      around := around.(issued := around.issued + {id});
      granted := true;
    }

    method ConsumeInteractiveLocked(id: Id, token: string, now: nat, ghost h: nat) returns (k: Option<Key>)
      modifies this`sessions, this`attached, this`around
      ensures View() == ConsumeSession(old(View()), h, id, token, now)
      ensures k.Some? <==> CanConsume(old(View()), id, token, now)
      ensures k.Some? ==> id in old(sessions) && k.value == old(sessions)[id].key
    {
      sessions := ForgetExpired(sessions, now);
      if id !in sessions || sessions[id].token != token {
        return None;
      }
      var key := sessions[id].key;
      sessions := sessions - {id};
      if key !in executions || !executions[key].kind.Interactive? || Final(executions[key].status) || key in attached {
        return None;
      }
      attached := attached + {key};
      around := around.(consumed := around.consumed + {id}, handlers := around.handlers[h := key]);
      k := Some(key);
    }

    method ReleaseInteractiveLocked(k: Key, ghost h: nat)
      requires h in around.handlers && around.handlers[h] == k
      modifies this`attached, this`around
      ensures View() == ReleaseSession(old(View()), h)
    {
      attached := attached - {k};
      around := around.(handlers := around.handlers - {h});
    }

    method BeginDownloadLocked(id: Id) returns (v: Verdict)
      modifies this`sandboxes, this`around
      ensures View() == DownloadBegin(old(View()), id, cfg)
      ensures v == old(DownloadVerdict(View(), id, cfg))
    {
      if id !in sandboxes {
        return UnknownSandbox;
      }
      var sb := sandboxes[id];
      if !sb.status.Ready? {
        return NotReady;
      }
      if sb.backend !in cfg.backends {
        return UnknownBackend;
      }
      if sb.backend !in cfg.downloaders {
        return Unsupported;
      }
      if sb.download
          || (sb.active.Some? && Key(id, sb.active.value) in executions
              && !Final(executions[Key(id, sb.active.value)].status)) {
        return Busy;
      }
      sandboxes := sandboxes[id := sb.(download := true)];
      around := around.(downloads := around.downloads + multiset{id});
      v := Accepted;
    }

    method EndDownloadLocked(id: Id)
      modifies this`sandboxes, this`around
      ensures View() == DownloadEnd(old(View()), id)
    {
      if id in sandboxes {
        sandboxes := sandboxes[id := sandboxes[id].(download := false)];
      }
      around := around.(downloads := around.downloads - multiset{id});
    }

    // ---- Subscriptions ----

    /** SubscribeExecutionEvents and SubscribeSandboxEvents; the history and the subscriber's number. */
    method SubscribeToLocked(t: Topic, mode: Mode, ghost w: nat) returns (r: Option<(seq<Event>, nat)>)
      requires Tidy()
      modifies this`feeds, this`around
      ensures Tidy() && View() == StartWatch(old(View()), w, t, mode)
      ensures r.Some? <==> Stored(old(View()), t) && t in old(feeds)
      ensures r.Some? ==> r.value == (old(feeds)[t].history, old(feeds)[t].nextSub)
    {
      var stored := match t case OfExec(k) => k in executions case OfSandbox(id) => id in sandboxes;
      if !stored || t !in feeds {
        return None;
      }
      var l := feeds[t];
      r := Some((l.history, l.nextSub));
      around := around.(watches := around.watches[w := Watch(t, Start(l, mode))]);
      feeds := feeds[t := Subscribe(l)];
    }

    /** The unsubscribe function handed to a subscriber. */
    method UnsubscribeFromLocked(t: Topic, sub: nat, ghost w: nat)
      requires Tidy() && w in around.watches && around.watches[w].topic == t && around.watches[w].follower.sub == sub
      modifies this`feeds
      ensures Tidy() && View() == EndWatch(old(View()), w)
    {
      var stored := match t case OfExec(k) => k in executions case OfSandbox(id) => id in sandboxes;
      if stored && t in feeds {
        feeds := feeds[t := Unsubscribe(feeds[t], sub)];
      }
    }

    // ---- The service's calls, one critical section each ----

    ghost method Note(op: Op)
      requires IsRun(states, ops, cfg) && Enabled(states[|ops|], op, cfg) && View() == Apply(states[|ops|], op, cfg)
      modifies this`states, this`ops
      ensures Valid()
    {
      ExtendRun(states, ops, cfg, op);
      states, ops := states + [View()], ops + [op];
    }

    /** CreateSandbox, after the backend has provisioned it. */
    method CreateSandbox(id: Id, backend: string, now: nat)
      requires Valid() && Enabled(View(), OpCreateSandbox(id, backend, now), cfg)
      modifies this
      ensures Valid() && View() == ServiceModel.CreateSandbox(old(View()), id, backend, now, cfg)
    {
      RunTidy(states, ops, cfg);
      CreateSandboxLocked(id, backend, now);
      Note(OpCreateSandbox(id, backend, now));
    }

    /** TerminateSandbox before it calls the backend; `calls` are the cancel functions it calls once the lock is
        released. */
    method BeginTerminate(id: Id, now: nat) returns (known: bool, calls: set<Key>)
      requires Valid()
      modifies this
      ensures Valid() && View() == TerminateBegin(old(View()), id, now, cfg)
      ensures known <==> id in old(sandboxes)
      ensures calls == if known && !old(sandboxes)[id].status.Stopped? then Cancellable(old(executions), id) else {}
    {
      RunTidy(states, ops, cfg);
      known, calls := BeginTerminateLocked(id, now);
      Note(OpTerminateBegin(id, now));
    }

    /** TerminateSandbox after the backend's own termination succeeded or failed. */
    method EndTerminate(id: Id, ok: bool, now: nat)
      requires Valid() && Enabled(View(), OpTerminateEnd(id, ok, now), cfg)
      modifies this
      ensures Valid() && View() == TerminateEnd(old(View()), id, ok, now, cfg)
    {
      RunTidy(states, ops, cfg);
      EndTerminateLocked(id, ok, now);
      Note(OpTerminateEnd(id, ok, now));
    }

    method BeginDownload(id: Id) returns (v: Verdict)
      requires Valid()
      modifies this
      ensures Valid() && View() == DownloadBegin(old(View()), id, cfg) && v == DownloadVerdict(old(View()), id, cfg)
    {
      v := BeginDownloadLocked(id);
      Note(OpDownloadBegin(id));
    }

    method EndDownload(id: Id)
      requires Valid() && Enabled(View(), OpDownloadEnd(id), cfg)
      modifies this
      ensures Valid() && View() == DownloadEnd(old(View()), id)
    {
      EndDownloadLocked(id);
      Note(OpDownloadEnd(id));
    }

    /** CreateExecution for a request's sandbox id, which may be any text, and a freshly generated execution id. */
    method CreateExecution(k: Key, kind: Kind, now: nat) returns (v: Verdict)
      requires Valid() && Enabled(View(), OpCreateExecution(k, kind, now), cfg)
      modifies this
      ensures Valid() && View() == ServiceModel.CreateExecution(old(View()), k, kind, now, cfg)
      ensures v == CreateVerdict(old(View()), k.sandbox, cfg)
    {
      RunTidy(states, ops, cfg);
      v := CreateExecutionLocked(k, kind, now);
      Note(OpCreateExecution(k, kind, now));
    }

    /** runExecution up to the backend call; it goes ahead exactly when the execution is still live. */
    method EnterRun(k: Key, now: nat) returns (go: bool)
      requires Valid() && Enabled(View(), OpBeginRun(k, now), cfg)
      modifies this
      ensures Valid() && View() == BeginRun(old(View()), k, now, cfg)
      ensures go <==> Live(old(executions), k)
    {
      RunTidy(states, ops, cfg);
      RunnerGoesAhead(states, ops, cfg, k);
      go := EnterRunLocked(k, now);
      Note(OpBeginRun(k, now));
    }

    method OnOutput(k: Key, isStdout: bool, chunk: string)
      requires Valid() && Enabled(View(), OpOutput(k, isStdout, chunk), cfg)
      modifies this
      ensures Valid() && View() == OutputChunk(old(View()), k, isStdout, chunk, cfg)
    {
      RunTidy(states, ops, cfg);
      OnOutputLocked(k, isStdout, chunk);
      Note(OpOutput(k, isStdout, chunk));
    }

    method OnAttach(k: Key)
      requires Valid() && Enabled(View(), OpAttach(k), cfg)
      modifies this
      ensures Valid() && View() == SetAttach(old(View()), k)
    {
      OnAttachLocked(k);
      Note(OpAttach(k));
    }

    /** runExecution after the backend call; `canceled` is the run context's state. */
    method EndRun(k: Key, result: RunResult, streaming: bool, canceled: bool, now: nat)
      requires Valid() && Enabled(View(), OpFinishRun(k, result, streaming, now), cfg)
      requires canceled == (k in around.ctxCanceled)
      modifies this
      ensures Valid() && View() == FinishRun(old(View()), k, result, streaming, now, cfg)
    {
      RunTidy(states, ops, cfg);
      EndRunLocked(k, result, streaming, canceled, now);
      Note(OpFinishRun(k, result, streaming, now));
    }

    method CancelExecution(k: Key, signal: int, now: nat) returns (accepted: bool, call: bool)
      requires Valid()
      modifies this
      ensures Valid() && View() == Cancel(old(View()), k, signal, now, cfg)
      ensures accepted <==> Live(old(executions), k)
      ensures call <==> accepted && old(executions)[k].status.Running?
    {
      RunTidy(states, ops, cfg);
      RunningHasCancel(states, ops, cfg, k);
      accepted, call := CancelExecutionLocked(k, signal, now);
      Note(OpCancel(k, signal, now));
    }

    /** A cancel function handed out above is called. */
    ghost method CallCancelFunction(k: Key)
      requires Valid() && Enabled(View(), OpCallCancel(k), cfg)
      modifies this`around, this`states, this`ops
      ensures Valid() && View() == CallCancel(old(View()), k)
    {
      around := around.(cancels := around.cancels - multiset{k}, ctxCanceled := around.ctxCanceled + {k});
      Note(OpCallCancel(k));
    }

    method OpenInteractive(id: Id, k: Key, token: string, ttl: nat, now: nat) returns (granted: bool)
      requires Valid() && Enabled(View(), OpOpen(id, k, token, ttl, now), cfg)
      modifies this
      ensures Valid() && View() == OpenSession(old(View()), id, k, token, ttl, now, cfg)
      ensures granted <==> CanOpen(old(View()), k, now, cfg)
    {
      granted := OpenInteractiveLocked(id, k, token, ttl, now);
      Note(OpOpen(id, k, token, ttl, now));
    }

    method ConsumeInteractive(id: Id, token: string, now: nat, ghost h: nat) returns (k: Option<Key>)
      requires Valid() && Enabled(View(), OpConsume(h, id, token, now), cfg)
      modifies this
      ensures Valid() && View() == ConsumeSession(old(View()), h, id, token, now)
      ensures k.Some? <==> CanConsume(old(View()), id, token, now)
      ensures k.Some? ==> id in old(sessions) && k.value == old(sessions)[id].key
    {
      k := ConsumeInteractiveLocked(id, token, now, h);
      Note(OpConsume(h, id, token, now));
    }

    method ReleaseInteractive(k: Key, ghost h: nat)
      requires Valid() && h in around.handlers && around.handlers[h] == k
      modifies this
      ensures Valid() && View() == ReleaseSession(old(View()), h)
    {
      ReleaseInteractiveLocked(k, h);
      Note(OpRelease(h));
    }

    /** Subscribing succeeds exactly for a stored execution or sandbox. */
    method SubscribeTo(t: Topic, mode: Mode, ghost w: nat) returns (r: Option<(seq<Event>, nat)>)
      requires Valid() && Enabled(View(), OpWatch(w, t, mode), cfg)
      modifies this
      ensures Valid() && View() == StartWatch(old(View()), w, t, mode)
      ensures r.Some? <==> Stored(old(View()), t)
      ensures r.Some? ==> t in old(feeds) && r.value == (old(feeds)[t].history, old(feeds)[t].nextSub)
    {
      RunTidy(states, ops, cfg);
      StoredHasFeed(states, ops, cfg, t);
      r := SubscribeToLocked(t, mode, w);
      Note(OpWatch(w, t, mode));
    }

    /** A follower takes the oldest event out of its channel. */
    method TakeEventFrom(t: Topic, sub: nat, ghost w: nat)
      requires Valid() && Enabled(View(), OpMove(w, TakeEvent), cfg)
      requires around.watches[w].topic == t && around.watches[w].follower.sub == sub
      modifies this
      ensures Valid() && View() == MoveWatch(old(View()), w, TakeEvent)
    {
      ghost var watch, l := around.watches[w], feeds[t];
      around := around.(watches := around.watches[w := watch.(follower := Moved(l, watch.follower, TakeEvent))]);
      feeds := feeds[t := Receive(feeds[t], sub)];
      Note(OpMove(w, TakeEvent));
    }

    /** Any other move of a follower touches nothing of the service. */
    ghost method FollowerMoves(w: nat, m: FollowMove)
      requires Valid() && Enabled(View(), OpMove(w, m), cfg) && !m.TakeEvent?
      modifies this`around, this`states, this`ops
      ensures Valid() && View() == MoveWatch(old(View()), w, m)
    {
      var watch := around.watches[w];
      var follower := Moved(feeds[watch.topic], watch.follower, m);
      around := around.(watches := around.watches[w := watch.(follower := follower)]);
      Note(OpMove(w, m));
    }

    /** The unsubscribe function, which a follower calls when it has returned. */
    method UnsubscribeFrom(t: Topic, sub: nat, ghost w: nat)
      requires Valid() && Enabled(View(), OpEndWatch(w), cfg)
      requires around.watches[w].topic == t && around.watches[w].follower.sub == sub
      modifies this
      ensures Valid() && View() == EndWatch(old(View()), w)
    {
      RunTidy(states, ops, cfg);
      UnsubscribeFromLocked(t, sub, w);
      Note(OpEndWatch(w));
    }
  }

  ghost predicate TerminatedTables(s0: State, done: set<Key>, now: nat,
                                   executions: map<Key, Execution>, sessions: map<Id, Session>, attached: set<Key>)
  {
    && done <= s0.executions.Keys
    && executions
        == (map k | k in s0.executions :: if k in done then Terminated(s0.executions[k], now) else s0.executions[k])
    && var queued := set k | k in done && s0.executions[k].status.Queued?;
    && sessions == (map i | i in s0.sessions && s0.sessions[i].key !in queued :: s0.sessions[i])
    && attached == s0.attached - queued
  }

  ghost predicate TerminatedFeeds(s0: State, done: set<Key>, cfg: Config, feeds: Feeds) {
    && done <= s0.executions.Keys
    && feeds == map t | t in s0.feeds ::
         if t.OfExec? && t.key in done then TerminatedFeed(s0.feeds[t], s0.executions[t.key], BoundsOf(t, cfg))
         else s0.feeds[t]
  }

  lemma NothingTerminated(s0: State, now: nat, cfg: Config)
    ensures TerminatedTables(s0, {}, now, s0.executions, s0.sessions, s0.attached)
    ensures TerminatedFeeds(s0, {}, cfg, s0.feeds)
  {
  }

  lemma TablesOneMore(s0: State, done: set<Key>, k: Key, now: nat,
                      executions: map<Key, Execution>, sessions: map<Id, Session>, attached: set<Key>)
    requires TerminatedTables(s0, done, now, executions, sessions, attached) && k in s0.executions && k !in done
    ensures var queued := s0.executions[k].status.Queued?;
            TerminatedTables(s0, done + {k}, now, executions[k := Terminated(executions[k], now)],
                             if queued then map i | i in sessions && sessions[i].key != k :: sessions[i] else sessions,
                             if queued then attached - {k} else attached)
  {
    var before := set j | j in done && s0.executions[j].status.Queued?;
    var after := set j | j in done + {k} && s0.executions[j].status.Queued?;
    assert after == before + if s0.executions[k].status.Queued? then {k} else {};
  }

  lemma FeedsOneMore(s0: State, done: set<Key>, k: Key, cfg: Config, feeds: Feeds)
    requires TerminatedFeeds(s0, done, cfg, feeds) && k in s0.executions && k !in done
    ensures TerminatedFeeds(s0, done + {k}, cfg,
              if OfExec(k) !in feeds then feeds
              else feeds[OfExec(k) := TerminatedFeed(feeds[OfExec(k)], s0.executions[k], BoundsOf(OfExec(k), cfg))])
  {
  }

  /** In every reachable state the service is tidy, so its critical sections can be entered there. */
  lemma RunTidy(states: seq<State>, ops: seq<Op>, cfg: Config)
    requires IsRun(states, ops, cfg)
    ensures var s := states[|ops|]; Wired(s.feeds) && Named(s.executions) && NamedSandboxes(s.sandboxes)
  {
    var s := states[|ops|];
    RunInv(states, ops, cfg, |ops|);
    forall t | t in s.feeds ensures s.feeds[t].subs <= s.feeds[t].chans.Keys {
      assert FeedOk(s.feeds, t, cfg);
    }
    forall k | k in s.executions ensures SlashFree(k.sandbox) {
      assert KeyInv(s, k, cfg);
    }
    forall id | id in s.sandboxes ensures SlashFree(id) {
      assert SandboxInv(s, id);
    }
  }

  /** A runner that has not started finds a live execution's sandbox ready and its backend known. */
  lemma RunnerGoesAhead(states: seq<State>, ops: seq<Op>, cfg: Config, k: Key)
    requires IsRun(states, ops, cfg) && k in states[|ops|].runners && states[|ops|].runners[k].Spawned?
    ensures var s := states[|ops|];
            Live(s.executions, k) ==>
              && k.sandbox in s.sandboxes && s.sandboxes[k.sandbox].status.Ready?
              && s.sandboxes[k.sandbox].backend in cfg.backends
  {
    RunInv(states, ops, cfg, |ops|);
    assert KeyInv(states[|ops|], k, cfg);
  }

  lemma RunningHasCancel(states: seq<State>, ops: seq<Op>, cfg: Config, k: Key)
    requires IsRun(states, ops, cfg)
    ensures var s := states[|ops|]; k in s.executions && s.executions[k].status.Running? ==> s.executions[k].hasCancel
  {
    RunInv(states, ops, cfg, |ops|);
    assert KeyInv(states[|ops|], k, cfg);
  }

  lemma StoredHasFeed(states: seq<State>, ops: seq<Op>, cfg: Config, t: Topic)
    requires IsRun(states, ops, cfg)
    ensures Stored(states[|ops|], t) ==> t in states[|ops|].feeds
  {
    var s := states[|ops|];
    RunInv(states, ops, cfg, |ops|);
    match t
    case OfExec(k) => assert KeyInv(s, k, cfg);
    case OfSandbox(id) => assert SandboxInv(s, id);
  }
}

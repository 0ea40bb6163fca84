/** Every step of the control service keeps the invariant. */
module ServiceSteps {
  import opened Seqs
  import opened EventLog
  import opened ServiceModel
  import opened ServiceInvariant

  // ---- Pruning ----

  lemma DropExecutionsKey(s: State, gone: set<Key>, k: Key, cfg: Config)
    requires KeyInv(s, k, cfg) && (k in gone ==> k in s.executions && !Live(s.executions, k))
    ensures KeyInv(DropExecutions(s, gone), k, cfg)
  {
    assert OfExec(k) in Topics(gone) <==> k in gone;
  }

  lemma DropExecutionsSandbox(s: State, gone: set<Key>, id: Id)
    requires SandboxInv(s, id)
    ensures SandboxInv(DropExecutions(s, gone), id)
  {
    assert OfSandbox(id) !in Topics(gone);
  }

  lemma DropInteractive(s: State, gone: set<Key>)
    requires InteractiveInv(s) && forall k :: k in gone ==> !Live(s.executions, k)
    ensures InteractiveInv(DropExecutions(s, gone))
  {
    var executions := DropExecutions(s, gone).executions;
    assert forall k :: LiveInteractive(executions, k) <==> LiveInteractive(s.executions, k);
  }

  lemma FeedsKept(s: State, s': State, cfg: Config)
    requires FeedsInv(s, cfg) && FeedsEvolve(s.feeds, s'.feeds, cfg) && s'.watches == s.watches
    ensures FeedsInv(s', cfg)
  {
    EvolutionKeepsWatches(s.feeds, s'.feeds, s.watches, cfg);
  }

  lemma PruneExecutionsInv(s: State, now: nat, cfg: Config)
    requires Inv(s, cfg)
    ensures Inv(PruneExecutions(s, now, cfg), cfg)
  {
    var gone := s.executions.Keys - KeptExecutions(s.executions, now, cfg);
    var s' := PruneExecutions(s, now, cfg);
    assert forall k :: k in gone ==> k in s.executions && !Live(s.executions, k);
    forall k ensures KeyInv(s', k, cfg) {
      DropExecutionsKey(s, gone, k, cfg);
    }
    forall id ensures SandboxInv(s', id) {
      DropExecutionsSandbox(s, gone, id);
    }
    DropInteractive(s, gone);
    DropFeedsEvolve(s.feeds, Topics(gone), cfg);
    FeedsKept(s, s', cfg);
  }

  lemma DropSandboxesKey(s: State, gone: set<Id>, k: Key, cfg: Config)
    requires KeyInv(s, k, cfg) && (k.sandbox in gone ==> Stale(s, k.sandbox))
    ensures KeyInv(DropSandboxes(s, gone), k, cfg)
  {
    assert OfExec(k) !in (set id | id in gone :: OfSandbox(id));
    if Live(s.executions, k) {
      assert HasLive(s.executions, k.sandbox);
    }
  }

  lemma DropSandboxesSandbox(s: State, gone: set<Id>, id: Id)
    requires SandboxInv(s, id) && (id in gone ==> Stale(s, id))
    ensures SandboxInv(DropSandboxes(s, gone), id)
  {
    assert OfSandbox(id) in (set i | i in gone :: OfSandbox(i)) <==> id in gone;
  }

  lemma PruneSandboxesInv(s: State, now: nat, cfg: Config)
    requires Inv(s, cfg)
    ensures Inv(PruneSandboxes(s, now, cfg), cfg)
  {
    var gone := s.sandboxes.Keys - KeptSandboxes(s, now, cfg);
    var s' := PruneSandboxes(s, now, cfg);
    assert forall id :: id in gone ==> Stale(s, id);
    forall k ensures KeyInv(s', k, cfg) {
      DropSandboxesKey(s, gone, k, cfg);
    }
    forall id ensures SandboxInv(s', id) {
      DropSandboxesSandbox(s, gone, id);
    }
    DropFeedsEvolve(s.feeds, set id | id in gone :: OfSandbox(id), cfg);
    FeedsKept(s, s', cfg);
  }

  lemma PruneInv(s: State, now: nat, cfg: Config)
    requires Inv(s, cfg)
    ensures Inv(Prune(s, now, cfg), cfg)
  {
    PruneExecutionsInv(s, now, cfg);
    PruneSandboxesInv(PruneExecutions(s, now, cfg), now, cfg);
  }

  // ---- Emitting ----

  ghost predicate OpenFeed(l: Log<Event>, b: Bounds) {
    LogOk(l, b) && !l.doneClosed && TraceOk(l.trace, false)
  }

  lemma TraceExtends(trace: seq<Event>, e: Event)
    requires TraceOk(trace, false) && e.ExecEvent?
    ensures TraceOk(trace + [e], IsExit(e))
  {
  }

  lemma EmitOpen(l: Log<Event>, e: Event, b: Bounds)
    requires OpenFeed(l, b) && e.ExecEvent? && !IsExit(e)
    ensures OpenFeed(Record(l, e, b), b) && Evolves(l, Record(l, e, b), b)
  {
    RecordEvolves(l, e, b);
    TraceExtends(l.trace, e);
  }

  lemma EmitExit(l: Log<Event>, e: Event, b: Bounds)
    requires OpenFeed(l, b) && IsExit(e)
    ensures var l' := CloseDone(Record(l, e, b));
            Evolves(l, l', b) && l'.doneClosed && TraceOk(l'.trace, true) && l'.trace[|l'.trace| - 1] == e
  {
    RecordEvolves(l, e, b);
    CloseDoneEvolves(Record(l, e, b), b);
    EvolvesTrans(l, Record(l, e, b), CloseDone(Record(l, e, b)), b);
    TraceExtends(l.trace, e);
  }

  // ---- Finalizing ----

  /** The execution under `k` is live in name only: its runner is not in the backend, its handles are down. */
  ghost predicate FinishingAt(s: State, k: Key, cfg: Config) {
    && k in s.executions && OfExec(k) in s.feeds
    && OpenFeed(s.feeds[OfExec(k)], BoundsOf(OfExec(k), cfg))
    && SlashFree(k.sandbox) && SlashFree(k.exec)
    && k in s.runners && !s.runners[k].InBackend? && k in s.signals
    && var e := s.executions[k];
    && !Final(e.status) && SignalsOk(e, s.signals[k]) && !e.hasCancel && !e.hasAttach
    && (k in s.cancels || k in s.ctxCanceled ==> e.cancelRequested)
  }

  /** A final status and code that agree with what was requested of the execution. */
  ghost predicate OutcomeFits(e: Execution, status: Status, code: int) {
    && Final(status) && !status.TimedOut?
    && (status.Canceled? <==> e.cancelRequested)
    && (status.Canceled? ==> code == CancelExitCode(e.cancelSignal))
    && (status.Succeeded? ==> code == 0)
  }

  ghost predicate ReadyToFinish(s: State, k: Key, status: Status, code: int, cfg: Config) {
    FinishingAt(s, k, cfg) && OutcomeFits(s.executions[k], status, code)
  }

  lemma FinalizeKey(s: State, k: Key, status: Status, code: int, message: string, exitMessage: string, now: nat,
                    cfg: Config, k': Key)
    requires ReadyToFinish(s, k, status, code, cfg) && (k' != k ==> KeyInv(s, k', cfg))
    ensures KeyInv(Finalize(s, k, status, code, message, exitMessage, now, cfg), k', cfg)
  {
    if k' == k {
      EmitExit(s.feeds[OfExec(k)], ExitEvent(status, code, message, exitMessage), BoundsOf(OfExec(k), cfg));
    }
  }

  lemma FinalizeFeeds(s: State, k: Key, status: Status, code: int, message: string, exitMessage: string, now: nat,
                      cfg: Config)
    requires ReadyToFinish(s, k, status, code, cfg) && FeedsInv(s, cfg)
    ensures FeedsInv(Finalize(s, k, status, code, message, exitMessage, now, cfg), cfg)
  {
    var s' := Finalize(s, k, status, code, message, exitMessage, now, cfg);
    var t, e := OfExec(k), ExitEvent(status, code, message, exitMessage);
    EmitExit(s.feeds[t], e, BoundsOf(t, cfg));
    var l' := CloseDone(Record(s.feeds[t], e, BoundsOf(t, cfg)));
    assert s'.feeds == s.feeds[t := l'];
    OneFeedEvolves(s.feeds, t, l', cfg);
    FeedsKept(s, s', cfg);
  }

  lemma FinalizeSandbox(s: State, k: Key, status: Status, code: int, message: string, exitMessage: string, now: nat,
                        cfg: Config, id: Id)
    requires k in s.executions && SandboxInv(s, id)
    ensures SandboxInv(Finalize(s, k, status, code, message, exitMessage, now, cfg), id)
  {
  }

  lemma ClearFinished(executions: map<Key, Execution>, s: State, gone: set<Key>)
    requires InteractiveInv(s)
    requires forall k :: LiveInteractive(executions, k) <==> LiveInteractive(s.executions, k) && k !in gone
    ensures InteractiveInv(ClearInteractive(s, gone).(executions := executions))
  {
  }

  lemma FinalizeInteractive(s: State, k: Key, status: Status, code: int, message: string, exitMessage: string,
                            now: nat, cfg: Config)
    requires k in s.executions && Final(status) && InteractiveInv(s)
    ensures InteractiveInv(Finalize(s, k, status, code, message, exitMessage, now, cfg))
  {
    ClearFinished(Finalize(s, k, status, code, message, exitMessage, now, cfg).executions, s, {k});
  }

  lemma FinalizeInv(s: State, k: Key, status: Status, code: int, message: string, exitMessage: string, now: nat,
                    cfg: Config)
    requires InvExcept(s, k, cfg) && ReadyToFinish(s, k, status, code, cfg)
    ensures Inv(Finalize(s, k, status, code, message, exitMessage, now, cfg), cfg)
  {
    forall k' ensures KeyInv(Finalize(s, k, status, code, message, exitMessage, now, cfg), k', cfg) {
      FinalizeKey(s, k, status, code, message, exitMessage, now, cfg, k');
    }
    forall id ensures SandboxInv(Finalize(s, k, status, code, message, exitMessage, now, cfg), id) {
      FinalizeSandbox(s, k, status, code, message, exitMessage, now, cfg, id);
    }
    FinalizeFeeds(s, k, status, code, message, exitMessage, now, cfg);
    FinalizeInteractive(s, k, status, code, message, exitMessage, now, cfg);
  }

  // ---- Sandboxes ----

  lemma CreateSandboxInv(s: State, id: Id, backend: string, now: nat, cfg: Config)
    requires Inv(s, cfg) && OfSandbox(id) !in s.feeds && backend in cfg.backends && SlashFree(id)
    ensures Inv(CreateSandbox(s, id, backend, now, cfg), cfg)
  {
    var event := SandboxEvent(Ready, "sandbox created and ready");
    var s1 := s.(sandboxes := s.sandboxes[id := Sandbox(backend, Ready, None, false, now, now)],
                 feeds := s.feeds[OfSandbox(id) := Record(EmptyLog(), event, BoundsOf(OfSandbox(id), cfg))]);
    assert SandboxInv(s, id);
    forall k ensures KeyInv(s1, k, cfg) {
      assert KeyInv(s, k, cfg);
    }
    forall i ensures SandboxInv(s1, i) {
      assert SandboxInv(s, i);
    }
    NewFeedEvolves(s.feeds, OfSandbox(id), event, cfg);
    FeedsKept(s, s1, cfg);
    PruneInv(s1, now, cfg);
  }

  lemma DownloadBeginInv(s: State, id: Id, cfg: Config)
    requires Inv(s, cfg)
    ensures Inv(DownloadBegin(s, id, cfg), cfg)
  {
    var s' := DownloadBegin(s, id, cfg);
    forall k ensures KeyInv(s', k, cfg) {
      assert KeyInv(s, k, cfg);
    }
    forall i ensures SandboxInv(s', i) {
      assert SandboxInv(s, i);
    }
  }

  lemma DownloadEndInv(s: State, id: Id, cfg: Config)
    requires Inv(s, cfg) && id in s.downloads
    ensures Inv(DownloadEnd(s, id), cfg)
  {
    var s' := DownloadEnd(s, id);
    forall k ensures KeyInv(s', k, cfg) {
      assert KeyInv(s, k, cfg);
    }
    forall i ensures SandboxInv(s', i) {
      assert SandboxInv(s, i);
    }
  }

  // Terminating

  lemma SandboxEmitEvolves(s: State, id: Id, status: SandboxStatus, text: string, cfg: Config)
    requires FeedsOk(s.feeds, cfg) && SandboxInv(s, id) && id in s.sandboxes && !s.sandboxes[id].status.Stopped?
    ensures FeedsEvolve(s.feeds, Emit(s.feeds, OfSandbox(id), SandboxEvent(status, text), cfg), cfg)
  {
    var t := OfSandbox(id);
    assert FeedOk(s.feeds, t, cfg);
    RecordEvolves(s.feeds[t], SandboxEvent(status, text), BoundsOf(t, cfg));
    OneFeedEvolves(s.feeds, t, Record(s.feeds[t], SandboxEvent(status, text), BoundsOf(t, cfg)), cfg);
  }

  lemma MessageKeepsText(trace: seq<Event>, e: Event)
    requires e.ExecEvent? && (e.payload.Message? || e.payload.Exit?)
    ensures forall isStdout :: TextOf(trace + [e], isStdout) == TextOf(trace, isStdout)
  {
    forall isStdout ensures TextOf(trace + [e], isStdout) == TextOf(trace, isStdout) {
      TextOfSnoc(trace, e, isStdout);
    }
  }

  lemma TerminatedFeedEvolves(l: Log<Event>, e: Execution, limit: int, b: Bounds, now: nat)
    requires LogOk(l, b) && ExecFeedOk(l, Some(e), limit) && !Final(e.status)
    ensures Evolves(l, TerminatedFeed(l, e, b), b)
    ensures ExecFeedOk(TerminatedFeed(l, e, b), Some(Terminated(e, now)), limit)
  {
    var message := ExecEvent(e.status, Message(TERM_TEXT));
    EmitOpen(l, message, b);
    MessageKeepsText(l.trace, message);
    if e.status.Queued? {
      var l1, exit := Record(l, message, b), ExitEvent(Canceled, CancelExitCode(TERM_SIGNAL), e.message, TERM_EXIT);
      EmitExit(l1, exit, b);
      EvolvesTrans(l, l1, CloseDone(Record(l1, exit, b)), b);
    }
  }

  /** What terminating does to one live execution of the sandbox being stopped. */
  lemma TerminatedKeyOk(k: Key, e: Execution, l: Log<Event>, sb: Sandbox, sb': Sandbox, pc: Option<RunPc>,
                        signals: seq<int>,
                        pending: bool, ctx: bool, held: bool, now: nat, cfg: Config)
    requires KeyOk(k, Some(e), Some(l), Some(sb), pc, Some(signals), pending, ctx, held, cfg) && !Final(e.status)
    requires LogOk(l, BoundsOf(OfExec(k), cfg))
    requires sb'.active == sb.active && sb'.download == sb.download && sb'.backend == sb.backend
    ensures KeyOk(k, Some(Terminated(e, now)), Some(TerminatedFeed(l, e, BoundsOf(OfExec(k), cfg))), Some(sb'), pc,
                  Some(signals + [TERM_SIGNAL]), pending || !e.status.Queued?, ctx, held, cfg)
  {
    TerminatedFeedEvolves(l, e, cfg.outputLimit, BoundsOf(OfExec(k), cfg), now);
    TerminatedShape(e, signals, now);
  }

  lemma TerminatedShape(e: Execution, signals: seq<int>, now: nat)
    requires ShapeOk(e) && SignalsOk(e, signals) && !Final(e.status)
    ensures ShapeOk(Terminated(e, now)) && SignalsOk(Terminated(e, now), signals + [TERM_SIGNAL])
  {
  }

  /** `s'` is `s` after terminating the executions of sandbox `id`, as seen at key `k`. */
  ghost predicate TerminatedAt(s: State, s': State, id: Id, now: nat, cfg: Config, k: Key) {
    var doomed := k.sandbox == id && Live(s.executions, k);
    && s'.sandboxes == s.sandboxes && s'.runners == s.runners && s'.ctxCanceled == s.ctxCanceled
        && s'.handlers == s.handlers
    && (doomed ==> k in s.signals && OfExec(k) in s.feeds)
    && Get(s'.executions, k) == (if doomed then Some(Terminated(s.executions[k], now)) else Get(s.executions, k))
    && Get(s'.feeds, OfExec(k))
        == (if doomed then Some(TerminatedFeed(s.feeds[OfExec(k)], s.executions[k], BoundsOf(OfExec(k), cfg)))
                                    else Get(s.feeds, OfExec(k)))
    && Get(s'.signals, k) == (if doomed then Some(s.signals[k] + [TERM_SIGNAL]) else Get(s.signals, k))
    && (k in s'.cancels <==> k in s.cancels || (doomed && !s.executions[k].status.Queued? && s.executions[k].hasCancel))
  }

  lemma TerminateExecutionsAt(s: State, id: Id, now: nat, cfg: Config, k: Key)
    requires Live(s.executions, k) ==> k in s.signals && OfExec(k) in s.feeds
    ensures TerminatedAt(s, TerminateExecutions(s, id, now, cfg), id, now, cfg, k)
  {
    var running := set k | k in Doomed(s.executions, id) && !s.executions[k].status.Queued?
        && s.executions[k].hasCancel;
    assert k in multiset(running) <==> k in running;
  }

  /** Only sandbox `id` and its feed changed, and the sandbox is no longer ready. */
  ghost predicate Marked(s: State, s1: State, id: Id) {
    && id in s.sandboxes && id in s1.sandboxes && s1.sandboxes[id].status.Stopping?
    && s1 == s.(sandboxes := s1.sandboxes, feeds := s1.feeds)
    && (forall i :: i != id ==> Get(s1.sandboxes, i) == Get(s.sandboxes, i))
    && s1.sandboxes[id].active == s.sandboxes[id].active && s1.sandboxes[id].download == s.sandboxes[id].download
    && s1.sandboxes[id].backend == s.sandboxes[id].backend
    && (forall t :: t != OfSandbox(id) ==> Get(s1.feeds, t) == Get(s.feeds, t))
  }

  lemma MarkStoppingMarks(s: State, id: Id, now: nat, cfg: Config)
    requires id in s.sandboxes && SandboxInv(s, id) && !s.sandboxes[id].status.Stopped? && FeedsOk(s.feeds, cfg)
    ensures Marked(s, MarkStopping(s, id, now, cfg), id)
    ensures SandboxInv(MarkStopping(s, id, now, cfg), id)
    ensures FeedsEvolve(s.feeds, MarkStopping(s, id, now, cfg).feeds, cfg)
  {
    if s.sandboxes[id].status.Stopping? {
      FeedsEvolveRefl(s.feeds, cfg);
    } else {
      SandboxEmitEvolves(s, id, Stopping, "sandbox termination requested", cfg);
    }
  }

  lemma TerminateKey(s: State, s1: State, s2: State, id: Id, now: nat, cfg: Config, k: Key)
    requires KeyInv(s, k, cfg) && FeedsOk(s.feeds, cfg) && Marked(s, s1, id) && TerminatedAt(s1, s2, id, now, cfg, k)
    ensures KeyInv(s2, k, cfg)
  {
    assert Get(s1.feeds, OfExec(k)) == Get(s.feeds, OfExec(k));
    assert FeedOk(s.feeds, OfExec(k), cfg);
    if k.sandbox != id {
      assert Get(s1.sandboxes, k.sandbox) == Get(s.sandboxes, k.sandbox);
    } else if Live(s.executions, k) {
      TerminatedKeyOk(k, s.executions[k], s.feeds[OfExec(k)], s.sandboxes[id], s1.sandboxes[id], Get(s.runners, k),
                      s.signals[k],
                      k in s.cancels, k in s.ctxCanceled, k in s.handlers.Values, now, cfg);
    }
  }

  lemma TerminateExecutionsSandbox(s: State, id: Id, now: nat, cfg: Config, i: Id)
    requires SandboxInv(s, i)
    ensures SandboxInv(TerminateExecutions(s, id, now, cfg), i)
  {
  }

  lemma TerminateInteractive(s: State, id: Id, now: nat, cfg: Config)
    requires InteractiveInv(s)
    ensures InteractiveInv(TerminateExecutions(s, id, now, cfg))
  {
    var queued := set k | k in Doomed(s.executions, id) && s.executions[k].status.Queued?;
    var executions := TerminateExecutions(s, id, now, cfg).executions;
    forall k ensures LiveInteractive(executions, k) <==> LiveInteractive(s.executions, k) && k !in queued {
    }
    ClearFinished(executions, s, queued);
  }

  lemma TerminateExecutionsFeeds(s: State, id: Id, now: nat, cfg: Config)
    requires FeedsOk(s.feeds, cfg)
    requires forall k :: Live(s.executions, k) && OfExec(k) in s.feeds ==>
               ExecFeedOk(s.feeds[OfExec(k)], Some(s.executions[k]), cfg.outputLimit)
    ensures FeedsEvolve(s.feeds, TerminateExecutions(s, id, now, cfg).feeds, cfg)
  {
    var feeds' := TerminateExecutions(s, id, now, cfg).feeds;
    forall t ensures FeedEvolves(s.feeds, feeds', t, cfg) {
      assert FeedOk(s.feeds, t, cfg);
      if t in s.feeds && t.OfExec? && t.key in Doomed(s.executions, id) {
        TerminatedFeedEvolves(s.feeds[t], s.executions[t.key], cfg.outputLimit, BoundsOf(t, cfg), now);
      } else if t in s.feeds {
        EvolvesRefl(s.feeds[t], BoundsOf(t, cfg));
      }
    }
    FeedsEvolveIf(s.feeds, feeds', cfg);
  }

  lemma TerminateFeeds(s: State, s1: State, id: Id, now: nat, cfg: Config)
    requires Inv(s, cfg) && Marked(s, s1, id) && FeedsEvolve(s.feeds, s1.feeds, cfg)
    ensures FeedsEvolve(s.feeds, TerminateExecutions(s1, id, now, cfg).feeds, cfg)
  {
    forall k | Live(s1.executions, k) && OfExec(k) in s1.feeds
      ensures ExecFeedOk(s1.feeds[OfExec(k)], Some(s1.executions[k]), cfg.outputLimit)
    {
      assert KeyInv(s, k, cfg);
      assert Get(s1.feeds, OfExec(k)) == Get(s.feeds, OfExec(k));
    }
    TerminateExecutionsFeeds(s1, id, now, cfg);
    FeedsEvolveTrans(s.feeds, s1.feeds, TerminateExecutions(s1, id, now, cfg).feeds, cfg);
  }

  lemma TerminateLiveInv(s: State, id: Id, now: nat, cfg: Config)
    requires Inv(s, cfg) && id in s.sandboxes && !s.sandboxes[id].status.Stopped?
    ensures Inv(TerminateExecutions(MarkStopping(s, id, now, cfg), id, now, cfg), cfg)
  {
    assert SandboxInv(s, id);
    var s1 := MarkStopping(s, id, now, cfg);
    MarkStoppingMarks(s, id, now, cfg);
    TerminateMarkedInv(s, s1, id, now, cfg);
  }

  lemma TerminateMarkedInv(s: State, s1: State, id: Id, now: nat, cfg: Config)
    requires Inv(s, cfg) && Marked(s, s1, id) && FeedsEvolve(s.feeds, s1.feeds, cfg) && SandboxInv(s1, id)
    ensures Inv(TerminateExecutions(s1, id, now, cfg), cfg)
  {
    var s2 := TerminateExecutions(s1, id, now, cfg);
    forall k ensures KeyInv(s2, k, cfg) {
      assert KeyInv(s, k, cfg);
      assert Get(s1.feeds, OfExec(k)) == Get(s.feeds, OfExec(k));
      TerminateExecutionsAt(s1, id, now, cfg, k);
      TerminateKey(s, s1, s2, id, now, cfg, k);
    }
    forall i ensures SandboxInv(s2, i) {
      if i != id {
        assert SandboxInv(s, i);
        assert Get(s1.feeds, OfSandbox(i)) == Get(s.feeds, OfSandbox(i));
      }
      TerminateExecutionsSandbox(s1, id, now, cfg, i);
    }
    TerminateInteractive(s1, id, now, cfg);
    TerminateFeeds(s, s1, id, now, cfg);
    FeedsKept(s, s2, cfg);
  }

  lemma CountTerminating(s: State, terminating: multiset<Id>, cfg: Config)
    requires Inv(s, cfg)
    requires forall id :: id in terminating ==>
               id in s.terminating || (id in s.sandboxes && !s.sandboxes[id].status.Ready?)
    ensures Inv(s.(terminating := terminating), cfg)
  {
    var s' := s.(terminating := terminating);
    forall k ensures KeyInv(s', k, cfg) {
      assert KeyInv(s, k, cfg);
    }
    forall i ensures SandboxInv(s', i) {
      assert SandboxInv(s, i);
    }
  }

  lemma TerminateExecutionsRest(s: State, id: Id, now: nat, cfg: Config)
    ensures TerminateExecutions(s, id, now, cfg).sandboxes == s.sandboxes
    ensures TerminateExecutions(s, id, now, cfg).terminating == s.terminating
  {
  }

  lemma MarkStoppingRest(s: State, id: Id, now: nat, cfg: Config)
    requires id in s.sandboxes
    ensures var s1 := MarkStopping(s, id, now, cfg);
            s1.terminating == s.terminating && id in s1.sandboxes && s1.sandboxes[id].status.Stopping?
  {
  }

  lemma TerminateBeginInv(s: State, id: Id, now: nat, cfg: Config)
    requires Inv(s, cfg)
    ensures Inv(TerminateBegin(s, id, now, cfg), cfg)
  {
    if id in s.sandboxes {
      if s.sandboxes[id].status.Stopped? {
        CountTerminating(s, s.terminating + multiset{id}, cfg);
      } else {
        TerminateLiveInv(s, id, now, cfg);
        var s1 := MarkStopping(s, id, now, cfg);
        MarkStoppingRest(s, id, now, cfg);
        TerminateExecutionsRest(s1, id, now, cfg);
        CountTerminating(TerminateExecutions(s1, id, now, cfg), s.terminating + multiset{id}, cfg);
      }
    }
  }

  lemma StopInv(s: State, id: Id, now: nat, cfg: Config)
    requires Inv(s, cfg) && id in s.sandboxes && s.sandboxes[id].status.Stopping?
    ensures var stopped := SetSandbox(s, id, Stopped, "sandbox terminated", now, cfg);
            Inv(stopped.(feeds := Seal(stopped.feeds, OfSandbox(id))), cfg)
  {
    var stopped := SetSandbox(s, id, Stopped, "sandbox terminated", now, cfg);
    var s' := stopped.(feeds := Seal(stopped.feeds, OfSandbox(id)));
    forall k ensures KeyInv(s', k, cfg) {
      assert KeyInv(s, k, cfg);
    }
    forall i ensures SandboxInv(s', i) {
      assert SandboxInv(s, i);
    }
    SandboxEmitEvolves(s, id, Stopped, "sandbox terminated", cfg);
    var t := OfSandbox(id);
    assert FeedOk(stopped.feeds, t, cfg);
    CloseDoneEvolves(stopped.feeds[t], BoundsOf(t, cfg));
    OneFeedEvolves(stopped.feeds, t, CloseDone(stopped.feeds[t]), cfg);
    FeedsEvolveTrans(s.feeds, stopped.feeds, s'.feeds, cfg);
    FeedsKept(s, s', cfg);
  }

  lemma TerminateEndInv(s: State, id: Id, ok: bool, now: nat, cfg: Config)
    requires Inv(s, cfg) && id in s.terminating
    ensures Inv(TerminateEnd(s, id, ok, now, cfg), cfg)
  {
    var s1 := s.(terminating := s.terminating - multiset{id});
    CountTerminating(s, s1.terminating, cfg);
    assert SandboxInv(s, id);
    if ok {
      if id in s.sandboxes && !s.sandboxes[id].status.Stopped? {
        StopInv(s1, id, now, cfg);
        var stopped := SetSandbox(s1, id, Stopped, "sandbox terminated", now, cfg);
        PruneInv(stopped.(feeds := Seal(stopped.feeds, OfSandbox(id))), now, cfg);
      } else {
        PruneInv(s1, now, cfg);
      }
    }
  }
}

/** Invariant preservation for the steps that create, run, cancel and finish executions. */
module ServiceRunSteps {
  import opened Seqs
  import opened EventLog
  import opened Retention
  import opened ServiceModel
  import opened ServiceInvariant
  import opened ServiceSteps

  // ---- Creating ----

  lemma NewExecutionOk(k: Key, kind: Kind, sb: Sandbox, cfg: Config)
    requires sb.active == Some(k.exec) && !sb.download && sb.backend in cfg.backends && sb.status.Ready?
    requires SlashFree(k.sandbox) && SlashFree(k.exec)
    ensures var queued := ExecEvent(Queued, Message("execution queued"));
            KeyOk(k, Some(NewExecution(kind)), Some(Record(EmptyLog(), queued, BoundsOf(OfExec(k), cfg))), Some(sb),
                  Some(Spawned),
                  Some([]), false, false, false, cfg)
  {
    var queued := ExecEvent(Queued, Message("execution queued"));
    TextOfSnoc([], queued, true);
    TextOfSnoc([], queued, false);
    assert [] + [queued] == [queued];
  }

  lemma EnqueuedKey(s: State, k: Key, kind: Kind, now: nat, cfg: Config, k': Key)
    requires KeyInv(s, k', cfg) && KeyInv(s, k, cfg) && SandboxInv(s, k.sandbox)
    requires OfExec(k) !in s.feeds && SlashFree(k.exec) && CreateVerdict(s, k.sandbox, cfg).Accepted?
    ensures KeyInv(Enqueued(s, k, kind, now, cfg), k', cfg)
  {
    if k' == k {
      NewExecutionOk(k, kind, s.sandboxes[k.sandbox].(active := Some(k.exec), updatedAt := now), cfg);
    } else {
      EnqueuedOther(s, k, kind, now, cfg, k');
    }
  }

  lemma EnqueuedOther(s: State, k: Key, kind: Kind, now: nat, cfg: Config, k': Key)
    requires KeyInv(s, k', cfg) && k' != k && CreateVerdict(s, k.sandbox, cfg).Accepted?
    ensures KeyInv(Enqueued(s, k, kind, now, cfg), k', cfg)
  {
    assert k'.sandbox == k.sandbox ==> !Live(s.executions, k');
  }

  lemma EnqueuedSandbox(s: State, k: Key, kind: Kind, now: nat, cfg: Config, id: Id)
    requires SandboxInv(s, id) && k.sandbox in s.sandboxes
    ensures SandboxInv(Enqueued(s, k, kind, now, cfg), id)
  {
  }

  lemma EnqueuedInteractive(s: State, k: Key, kind: Kind, now: nat, cfg: Config)
    requires InteractiveInv(s) && k.sandbox in s.sandboxes && k !in s.executions && k !in s.handlers.Values
    ensures InteractiveInv(Enqueued(s, k, kind, now, cfg))
  {
    var executions := Enqueued(s, k, kind, now, cfg).executions;
    assert forall k' :: k' != k ==> (LiveInteractive(executions, k') <==> LiveInteractive(s.executions, k'));
    forall h | h in s.handlers && LiveInteractive(executions, s.handlers[h]) ensures s.handlers[h] in s.attached {
      assert s.handlers[h] in s.handlers.Values;
    }
  }

  lemma {:induction false} CreateExecutionInv(s: State, k: Key, kind: Kind, now: nat, cfg: Config)
    requires Inv(s, cfg) && OfExec(k) !in s.feeds && SlashFree(k.exec)
    ensures Inv(CreateExecution(s, k, kind, now, cfg), cfg)
  {
    assert KeyInv(s, k, cfg);
    assert SandboxInv(s, k.sandbox);
    match CreateVerdict(s, k.sandbox, cfg)
    case Accepted =>
      var s1 := Enqueued(s, k, kind, now, cfg);
      forall k' ensures KeyInv(s1, k', cfg) {
        EnqueuedKey(s, k, kind, now, cfg, k');
      }
      forall id ensures SandboxInv(s1, id) {
        EnqueuedSandbox(s, k, kind, now, cfg, id);
      }
      EnqueuedInteractive(s, k, kind, now, cfg);
      NewFeedEvolves(s.feeds, OfExec(k), ExecEvent(Queued, Message("execution queued")), cfg);
      FeedsKept(s, s1, cfg);
      PruneInv(s1, now, cfg);
    case Busy =>
      if !ActiveLive(s, k.sandbox) {
        ForgetActiveInv(s, k.sandbox, cfg);
      }
    case _ =>
  }

  /** Forgetting an active pointer that names no live execution changes nothing that matters. */
  lemma ForgetActiveInv(s: State, id: Id, cfg: Config)
    requires Inv(s, cfg) && id in s.sandboxes && !ActiveLive(s, id)
    ensures Inv(s.(sandboxes := s.sandboxes[id := s.sandboxes[id].(active := None)]), cfg)
  {
    var s' := s.(sandboxes := s.sandboxes[id := s.sandboxes[id].(active := None)]);
    forall k ensures KeyInv(s', k, cfg) {
      assert KeyInv(s, k, cfg);
      assert k.sandbox == id ==> !Live(s.executions, k);
    }
    forall i ensures SandboxInv(s', i) {
      assert SandboxInv(s, i);
    }
  }

  // ---- One execution and its feed change ----

  /** The state with everything that belongs to execution `k` replaced. */
  function Touch(s: State, k: Key, e: Execution, l: Log<Event>, pc: RunPc, signals: seq<int>,
                 cancels: multiset<Key>): State {
    s.(executions := s.executions[k := e], feeds := s.feeds[OfExec(k) := l], runners := s.runners[k := pc],
       signals := s.signals[k := signals], cancels := cancels)
  }

  lemma TouchInteractive(s: State, k: Key, e: Execution, l: Log<Event>, pc: RunPc, signals: seq<int>,
                         cancels: multiset<Key>)
    requires InteractiveInv(s) && k in s.executions
    requires e.kind == s.executions[k].kind && Final(e.status) == Final(s.executions[k].status)
    ensures InteractiveInv(Touch(s, k, e, l, pc, signals, cancels))
  {
    var executions := s.executions[k := e];
    assert forall k' :: LiveInteractive(executions, k') <==> LiveInteractive(s.executions, k');
  }

  ghost predicate Touches(s: State, k: Key, e: Execution, l: Log<Event>, cancels: multiset<Key>, cfg: Config) {
    && k in s.executions && OfExec(k) in s.feeds
    && e.kind == s.executions[k].kind && Final(e.status) == Final(s.executions[k].status)
    && Evolves(s.feeds[OfExec(k)], l, BoundsOf(OfExec(k), cfg))
    && (forall k' :: k' != k ==> (k' in cancels <==> k' in s.cancels))
  }

  lemma TouchOther(s: State, k: Key, e: Execution, l: Log<Event>, pc: RunPc, signals: seq<int>,
                   cancels: multiset<Key>, cfg: Config, k': Key)
    requires KeyInv(s, k', cfg) && k' != k && (k' in cancels <==> k' in s.cancels)
    ensures KeyInv(Touch(s, k, e, l, pc, signals, cancels), k', cfg)
  {
  }

  lemma TouchSandbox(s: State, k: Key, e: Execution, l: Log<Event>, pc: RunPc, signals: seq<int>,
                     cancels: multiset<Key>, id: Id)
    requires SandboxInv(s, id)
    ensures SandboxInv(Touch(s, k, e, l, pc, signals, cancels), id)
  {
  }

  lemma TouchExcept(s: State, k: Key, e: Execution, l: Log<Event>, pc: RunPc, signals: seq<int>,
                    cancels: multiset<Key>, cfg: Config)
    requires InvExcept(s, k, cfg) && Touches(s, k, e, l, cancels, cfg)
    ensures InvExcept(Touch(s, k, e, l, pc, signals, cancels), k, cfg)
  {
    var s' := Touch(s, k, e, l, pc, signals, cancels);
    forall k' | k' != k ensures KeyInv(s', k', cfg) {
      TouchOther(s, k, e, l, pc, signals, cancels, cfg, k');
    }
    forall id ensures SandboxInv(s', id) {
      TouchSandbox(s, k, e, l, pc, signals, cancels, id);
    }
    TouchInteractive(s, k, e, l, pc, signals, cancels);
    OneFeedEvolves(s.feeds, OfExec(k), l, cfg);
    FeedsKept(s, s', cfg);
  }

  /** A change to one execution keeps the invariant if that execution's own claims hold afterwards. */
  lemma TouchInv(s: State, k: Key, e: Execution, l: Log<Event>, pc: RunPc, signals: seq<int>, cancels: multiset<Key>,
                 cfg: Config)
    requires Inv(s, cfg) && Touches(s, k, e, l, cancels, cfg)
    requires KeyOk(k, Some(e), Some(l), Get(s.sandboxes, k.sandbox), Some(pc), Some(signals), k in cancels,
                   k in s.ctxCanceled,
                   k in s.handlers.Values, cfg)
    ensures Inv(Touch(s, k, e, l, pc, signals, cancels), cfg)
  {
    TouchExcept(s, k, e, l, pc, signals, cancels, cfg);
    var s' := Touch(s, k, e, l, pc, signals, cancels);
    forall k' ensures KeyInv(s', k', cfg) {
    }
  }

  lemma LiveFeedOpen(s: State, k: Key, cfg: Config)
    requires KeyInv(s, k, cfg) && FeedsOk(s.feeds, cfg) && Live(s.executions, k)
    ensures OfExec(k) in s.feeds && k in s.runners && k in s.signals
    ensures OpenFeed(s.feeds[OfExec(k)], BoundsOf(OfExec(k), cfg))
  {
    assert FeedOk(s.feeds, OfExec(k), cfg);
  }

  // ---- Starting ----

  lemma StartKeyOk(k: Key, e: Execution, l: Log<Event>, sb: Sandbox, signals: seq<int>, pending: bool, ctx: bool,
                   held: bool,
                   now: nat, b: Bounds, cfg: Config)
    requires KeyOk(k, Some(e), Some(l), Some(sb), Some(Spawned), Some(signals), pending, ctx, held, cfg)
    requires e.status.Queued? && sb.status.Ready? && OpenFeed(l, b)
    ensures KeyOk(k, Some(e.(status := Running, startedAt := Some(now), hasCancel := true)),
                  Some(Record(l, ExecEvent(Running, Message("execution started")), b)), Some(sb), Some(InBackend),
                      Some(signals),
                  pending, ctx, held, cfg)
  {
    var started := ExecEvent(Running, Message("execution started"));
    EmitOpen(l, started, b);
    MessageKeepsText(l.trace, started);
  }

  lemma StartInv(s: State, k: Key, now: nat, cfg: Config)
    requires Inv(s, cfg) && k in s.executions && s.executions[k].status.Queued?
    requires k.sandbox in s.sandboxes && s.sandboxes[k.sandbox].status.Ready?
    ensures Inv(Started(s, k, now, cfg), cfg)
  {
    assert KeyInv(s, k, cfg);
    LiveFeedOpen(s, k, cfg);
    var started, b, l := ExecEvent(Running, Message("execution started")), BoundsOf(OfExec(k), cfg), s.feeds[OfExec(k)];
    EmitOpen(l, started, b);
    StartKeyOk(k, s.executions[k], l, s.sandboxes[k.sandbox], s.signals[k], k in s.cancels, k in s.ctxCanceled,
               k in s.handlers.Values, now, b, cfg);
    var e := s.executions[k].(status := Running, startedAt := Some(now), hasCancel := true);
    TouchInv(s, k, e, Record(l, started, b), InBackend, s.signals[k], s.cancels, cfg);
    StartedIsTouch(s, k, now, cfg);
  }

  lemma StartedIsTouch(s: State, k: Key, now: nat, cfg: Config)
    requires k in s.executions && OfExec(k) in s.feeds && k in s.signals
    ensures Started(s, k, now, cfg)
            == Touch(s, k, s.executions[k].(status := Running, startedAt := Some(now), hasCancel := true),
                     Record(s.feeds[OfExec(k)], ExecEvent(Running, Message("execution started")),
                            BoundsOf(OfExec(k), cfg)),
                     InBackend, s.signals[k], s.cancels)
  {
    assert s.signals[k := s.signals[k]] == s.signals;
  }

  lemma QuitInv(s: State, k: Key, cfg: Config)
    requires Inv(s, cfg) && k in s.runners && !Live(s.executions, k)
    ensures Inv(s.(runners := s.runners[k := RunnerDone]), cfg)
  {
    var s' := s.(runners := s.runners[k := RunnerDone]);
    forall k' ensures KeyInv(s', k', cfg) {
      assert KeyInv(s, k', cfg);
    }
    forall id ensures SandboxInv(s', id) {
      assert SandboxInv(s, id);
    }
  }

  /** A spawned runner that finds its execution live finds it queued, its sandbox stored and ready, and its backend
      known: the three error branches of the runner's first section are never taken. */
  lemma RunnerFindsSandboxReady(s: State, k: Key, cfg: Config)
    requires Inv(s, cfg) && k in s.runners && s.runners[k].Spawned? && Live(s.executions, k)
    ensures s.executions[k].status.Queued?
    ensures k.sandbox in s.sandboxes && s.sandboxes[k.sandbox].status.Ready?
    ensures s.sandboxes[k.sandbox].backend in cfg.backends
  {
    assert KeyInv(s, k, cfg);
  }

  lemma BeginRunInv(s: State, k: Key, now: nat, cfg: Config)
    requires Inv(s, cfg) && k in s.runners && s.runners[k].Spawned?
    ensures Inv(BeginRun(s, k, now, cfg), cfg)
  {
    if Live(s.executions, k) {
      RunnerFindsSandboxReady(s, k, cfg);
      StartInv(s, k, now, cfg);
    } else {
      QuitInv(s, k, cfg);
    }
  }

  // ---- Output ----

  lemma AppendKeepsText(existing: string, text: string, chunk: string, limit: int)
    requires existing == TakeLast(text, limit)
    ensures AppendRetainedOutput(existing, chunk, limit) == TakeLast(text + chunk, limit)
  {
    AppendIsTakeLast(existing, chunk, limit);
    TakeLastAppend(text, chunk, limit);
  }

  lemma OutputTrace(trace: seq<Event>, status: Status, isStdout: bool, chunk: string)
    ensures var t' := trace + [ExecEvent(status, OutputPayload(isStdout, chunk))];
            && TextOf(t', isStdout) == TextOf(trace, isStdout) + chunk
            && TextOf(t', !isStdout) == TextOf(trace, !isStdout)
  {
    TextOfSnoc(trace, ExecEvent(status, OutputPayload(isStdout, chunk)), isStdout);
    TextOfSnoc(trace, ExecEvent(status, OutputPayload(isStdout, chunk)), !isStdout);
  }

  lemma OutputFeedOk(e: Execution, l: Log<Event>, isStdout: bool, chunk: string, b: Bounds, limit: int)
    requires ExecFeedOk(l, Some(e), limit) && e.status.Running? && OpenFeed(l, b)
    ensures ExecFeedOk(Record(l, ExecEvent(e.status, OutputPayload(isStdout, chunk)), b),
                       Some(WithOutput(e, isStdout, chunk, limit)), limit)
  {
    EmitOpen(l, ExecEvent(e.status, OutputPayload(isStdout, chunk)), b);
    OutputTrace(l.trace, e.status, isStdout, chunk);
    AppendKeepsText(if isStdout then e.stdout else e.stderr, TextOf(l.trace, isStdout), chunk, limit);
  }

  lemma OutputKeyOk(k: Key, e: Execution, l: Log<Event>, sb: Option<Sandbox>, pc: Option<RunPc>,
                    signals: Option<seq<int>>,
                    pending: bool, ctx: bool, held: bool, isStdout: bool, chunk: string, b: Bounds, cfg: Config)
    requires KeyOk(k, Some(e), Some(l), sb, pc, signals, pending, ctx, held, cfg) && e.status.Running? && OpenFeed(l, b)
    ensures KeyOk(k, Some(WithOutput(e, isStdout, chunk, cfg.outputLimit)),
                  Some(Record(l, ExecEvent(e.status, OutputPayload(isStdout, chunk)), b)), sb, pc, signals, pending,
                      ctx, held, cfg)
  {
    OutputFeedOk(e, l, isStdout, chunk, b, cfg.outputLimit);
  }

  lemma AppendOutputIsTouch(s: State, k: Key, isStdout: bool, status: Status, chunk: string, cfg: Config)
    requires k in s.executions && OfExec(k) in s.feeds && k in s.runners && k in s.signals && chunk != ""
    ensures AppendOutput(s, k, isStdout, status, chunk, cfg)
            == Touch(s, k, WithOutput(s.executions[k], isStdout, chunk, cfg.outputLimit),
                     Record(s.feeds[OfExec(k)], ExecEvent(status, OutputPayload(isStdout, chunk)),
                            BoundsOf(OfExec(k), cfg)),
                     s.runners[k], s.signals[k], s.cancels)
  {
    assert s.runners[k := s.runners[k]] == s.runners && s.signals[k := s.signals[k]] == s.signals;
  }

  lemma OutputChunkInv(s: State, k: Key, isStdout: bool, chunk: string, cfg: Config)
    requires Inv(s, cfg) && k in s.runners && !s.runners[k].Spawned?
    ensures Inv(OutputChunk(s, k, isStdout, chunk, cfg), cfg)
  {
    if Live(s.executions, k) && chunk != "" {
      assert KeyInv(s, k, cfg);
      LiveFeedOpen(s, k, cfg);
      var e, l, b := s.executions[k], s.feeds[OfExec(k)], BoundsOf(OfExec(k), cfg);
      var out := ExecEvent(e.status, OutputPayload(isStdout, chunk));
      EmitOpen(l, out, b);
      OutputKeyOk(k, e, l, Get(s.sandboxes, k.sandbox), Get(s.runners, k), Get(s.signals, k), k in s.cancels,
                  k in s.ctxCanceled,
                  k in s.handlers.Values, isStdout, chunk, b, cfg);
      TouchInv(s, k, WithOutput(e, isStdout, chunk, cfg.outputLimit), Record(l, out, b), s.runners[k], s.signals[k],
               s.cancels, cfg);
      AppendOutputIsTouch(s, k, isStdout, e.status, chunk, cfg);
    }
  }

  lemma SetAttachIsTouch(s: State, k: Key)
    requires Live(s.executions, k) && OfExec(k) in s.feeds && k in s.runners && k in s.signals
    ensures SetAttach(s, k)
            == Touch(s, k, s.executions[k].(hasAttach := true), s.feeds[OfExec(k)], s.runners[k], s.signals[k],
                     s.cancels)
  {
    assert s.runners[k := s.runners[k]] == s.runners && s.signals[k := s.signals[k]] == s.signals;
    assert s.feeds[OfExec(k) := s.feeds[OfExec(k)]] == s.feeds;
  }

  lemma AttachKeyOk(k: Key, e: Execution, l: Log<Event>, sb: Option<Sandbox>, pc: RunPc, signals: seq<int>,
                    pending: bool, ctx: bool, held: bool, cfg: Config)
    requires KeyOk(k, Some(e), Some(l), sb, Some(pc), Some(signals), pending, ctx, held, cfg) && !Final(e.status)
    requires !pc.Spawned?
    ensures KeyOk(k, Some(e.(hasAttach := true)), Some(l), sb, Some(pc), Some(signals), pending, ctx, held, cfg)
  {
  }

  lemma SetAttachInv(s: State, k: Key, cfg: Config)
    requires Inv(s, cfg) && k in s.runners && !s.runners[k].Spawned?
    ensures Inv(SetAttach(s, k), cfg)
  {
    if Live(s.executions, k) {
      assert KeyInv(s, k, cfg);
      LiveFeedOpen(s, k, cfg);
      EvolvesRefl(s.feeds[OfExec(k)], BoundsOf(OfExec(k), cfg));
      SetAttachIsTouch(s, k);
      AttachKeyOk(k, s.executions[k], s.feeds[OfExec(k)], Get(s.sandboxes, k.sandbox), s.runners[k], s.signals[k],
                  k in s.cancels,
                  k in s.ctxCanceled, k in s.handlers.Values, cfg);
      TouchInv(s, k, s.executions[k].(hasAttach := true), s.feeds[OfExec(k)], s.runners[k], s.signals[k], s.cancels,
               cfg);
    }
  }

  // ---- Finishing ----

  ghost predicate SameRequest(e: Execution, e': Execution) {
    && e'.kind == e.kind && e'.status == e.status && e'.hasCancel == e.hasCancel && e'.hasAttach == e.hasAttach
    && e'.cancelRequested == e.cancelRequested && e'.cancelSignal == e.cancelSignal
  }

  lemma TouchFinishing(s: State, k: Key, e: Execution, l: Log<Event>, cfg: Config)
    requires InvExcept(s, k, cfg) && FinishingAt(s, k, cfg) && SameRequest(s.executions[k], e)
    requires OpenFeed(l, BoundsOf(OfExec(k), cfg)) && Evolves(s.feeds[OfExec(k)], l, BoundsOf(OfExec(k), cfg))
    ensures var s' := Touch(s, k, e, l, s.runners[k], s.signals[k], s.cancels);
            InvExcept(s', k, cfg) && FinishingAt(s', k, cfg) && SameRequest(s.executions[k], s'.executions[k])
  {
    TouchExcept(s, k, e, l, s.runners[k], s.signals[k], s.cancels, cfg);
  }

  lemma AppendOutputFinishing(s: State, k: Key, isStdout: bool, status: Status, chunk: string, cfg: Config)
    requires InvExcept(s, k, cfg) && FinishingAt(s, k, cfg)
    ensures var s' := AppendOutput(s, k, isStdout, status, chunk, cfg);
            InvExcept(s', k, cfg) && FinishingAt(s', k, cfg) && SameRequest(s.executions[k], s'.executions[k])
  {
    if chunk != "" {
      var l, out, b := s.feeds[OfExec(k)], ExecEvent(status, OutputPayload(isStdout, chunk)), BoundsOf(OfExec(k), cfg);
      EmitOpen(l, out, b);
      TouchFinishing(s, k, WithOutput(s.executions[k], isStdout, chunk, cfg.outputLimit), Record(l, out, b), cfg);
      AppendOutputIsTouch(s, k, isStdout, status, chunk, cfg);
    }
  }

  lemma ReplaceOutputFinishing(s: State, k: Key, isStdout: bool, status: Status, text: string, cfg: Config)
    requires InvExcept(s, k, cfg) && FinishingAt(s, k, cfg)
    ensures var s' := ReplaceOutput(s, k, isStdout, status, text, cfg);
            InvExcept(s', k, cfg) && FinishingAt(s', k, cfg) && SameRequest(s.executions[k], s'.executions[k])
  {
    if text != "" {
      var l, out, b := s.feeds[OfExec(k)], ExecEvent(status, OutputPayload(isStdout, text)), BoundsOf(OfExec(k), cfg);
      EmitOpen(l, out, b);
      TouchFinishing(s, k, WithReplaced(s.executions[k], isStdout, text, cfg.outputLimit), Record(l, out, b), cfg);
      ReplaceOutputIsTouch(s, k, isStdout, status, text, cfg);
    }
  }

  lemma ReplaceOutputIsTouch(s: State, k: Key, isStdout: bool, status: Status, text: string, cfg: Config)
    requires k in s.executions && OfExec(k) in s.feeds && k in s.runners && k in s.signals && text != ""
    ensures ReplaceOutput(s, k, isStdout, status, text, cfg)
            == Touch(s, k, WithReplaced(s.executions[k], isStdout, text, cfg.outputLimit),
                     Record(s.feeds[OfExec(k)], ExecEvent(status, OutputPayload(isStdout, text)),
                            BoundsOf(OfExec(k), cfg)),
                     s.runners[k], s.signals[k], s.cancels)
  {
    assert s.runners[k := s.runners[k]] == s.runners && s.signals[k := s.signals[k]] == s.signals;
  }

  lemma MergeOneFinishing(s: State, k: Key, isStdout: bool, buffered: string, streaming: bool, cfg: Config)
    requires InvExcept(s, k, cfg) && FinishingAt(s, k, cfg)
    ensures var s' := MergeOne(s, k, isStdout, buffered, streaming, cfg);
            InvExcept(s', k, cfg) && FinishingAt(s', k, cfg) && SameRequest(s.executions[k], s'.executions[k])
  {
    var retained := if isStdout then s.executions[k].stdout else s.executions[k].stderr;
    match if streaming then BufferedResultDelta(retained, buffered, cfg.outputLimit) else Append(buffered)
    case Append(text) => AppendOutputFinishing(s, k, isStdout, Running, text, cfg);
    case Replace(text) => ReplaceOutputFinishing(s, k, isStdout, Running, text, cfg);
  }

  lemma MessageFinishing(s: State, k: Key, message: string, cfg: Config)
    requires InvExcept(s, k, cfg) && FinishingAt(s, k, cfg)
    ensures var s' := s.(executions := s.executions[k := s.executions[k].(message := message)]);
            InvExcept(s', k, cfg) && FinishingAt(s', k, cfg) && SameRequest(s.executions[k], s'.executions[k])
  {
    var l := s.feeds[OfExec(k)];
    EvolvesRefl(l, BoundsOf(OfExec(k), cfg));
    TouchFinishing(s, k, s.executions[k].(message := message), l, cfg);
    MessageIsTouch(s, k, message);
  }

  lemma MessageIsTouch(s: State, k: Key, message: string)
    requires k in s.executions && OfExec(k) in s.feeds && k in s.runners && k in s.signals
    ensures s.(executions := s.executions[k := s.executions[k].(message := message)])
            == Touch(s, k, s.executions[k].(message := message), s.feeds[OfExec(k)], s.runners[k], s.signals[k],
                     s.cancels)
  {
    assert s.runners[k := s.runners[k]] == s.runners && s.signals[k := s.signals[k]] == s.signals;
    assert s.feeds[OfExec(k) := s.feeds[OfExec(k)]] == s.feeds;
  }

  /** The sandbox is given back: no other execution of it was live. */
  lemma GiveBackExcept(s: State, k: Key, now: nat, cfg: Config)
    requires Inv(s, cfg) && Live(s.executions, k)
    ensures InvExcept(s.(sandboxes := RunReturned(s, k, now).sandboxes), k, cfg)
  {
    var s' := s.(sandboxes := RunReturned(s, k, now).sandboxes);
    assert KeyInv(s, k, cfg);
    forall k' | k' != k ensures KeyInv(s', k', cfg) {
      assert KeyInv(s, k', cfg);
      assert k'.sandbox == k.sandbox ==> !Live(s.executions, k');
    }
    forall id ensures SandboxInv(s', id) {
      assert SandboxInv(s, id);
    }
  }

  lemma RunReturnedFinishing(s: State, k: Key, now: nat, cfg: Config)
    requires Inv(s, cfg) && k in s.executions && s.executions[k].status.Running?
    ensures InvExcept(RunReturned(s, k, now), k, cfg) && FinishingAt(RunReturned(s, k, now), k, cfg)
  {
    assert KeyInv(s, k, cfg);
    LiveFeedOpen(s, k, cfg);
    GiveBackExcept(s, k, now, cfg);
    var s1 := s.(sandboxes := RunReturned(s, k, now).sandboxes);
    var e, l := s.executions[k].(hasCancel := false, hasAttach := false), s.feeds[OfExec(k)];
    EvolvesRefl(l, BoundsOf(OfExec(k), cfg));
    TouchExcept(s1, k, e, l, RunnerDone, s.signals[k], s.cancels, cfg);
    RunReturnedIsTouch(s, k, now);
  }

  lemma RunReturnedIsTouch(s: State, k: Key, now: nat)
    requires k in s.executions && OfExec(k) in s.feeds && k in s.signals
    ensures RunReturned(s, k, now)
            == Touch(s.(sandboxes := RunReturned(s, k, now).sandboxes), k,
                     s.executions[k].(hasCancel := false, hasAttach := false),
                     s.feeds[OfExec(k)], RunnerDone, s.signals[k], s.cancels)
  {
    assert s.signals[k := s.signals[k]] == s.signals;
    assert s.feeds[OfExec(k) := s.feeds[OfExec(k)]] == s.feeds;
  }

  lemma CollectedFinishing(s: State, k: Key, result: RunResult, streaming: bool, now: nat, cfg: Config)
    requires Inv(s, cfg) && k in s.executions && s.executions[k].status.Running?
    ensures var s' := Collected(s, k, result, streaming, now, cfg);
            && InvExcept(s', k, cfg) && FinishingAt(s', k, cfg)
            && s'.executions[k].cancelRequested == s.executions[k].cancelRequested
            && s'.executions[k].cancelSignal == s.executions[k].cancelSignal
  {
    var s1 := RunReturned(s, k, now);
    RunReturnedFinishing(s, k, now, cfg);
    match result
    case RunFailed(error) =>
      var ctx := if k in s.ctxCanceled then CanceledErr else NoErr;
      AppendOutputFinishing(s1, k, false, RunErrorStatus(s.executions[k], ctx).0, error + "\n", cfg);
    case RunOk(code, message, out, err) =>
      CompletedFinishing(s1, k, code, message, out, err, streaming, cfg);
  }

  /** The result of a completed run is merged in, on a state where the runner has returned. */
  lemma CompletedFinishing(s1: State, k: Key, code: int, message: string, out: string, err: string, streaming: bool,
                           cfg: Config)
    requires InvExcept(s1, k, cfg) && FinishingAt(s1, k, cfg)
    ensures var s' := WithResult(s1, k, code, message, out, err, streaming, cfg);
            InvExcept(s', k, cfg) && FinishingAt(s', k, cfg) && SameRequest(s1.executions[k], s'.executions[k])
  {
    var s2 := s1.(executions := s1.executions[k := s1.executions[k].(message := message)]);
    MessageFinishing(s1, k, message, cfg);
    MergeOneFinishing(s2, k, true, out, streaming, cfg);
    var s3 := MergeOne(s2, k, true, out, streaming, cfg);
    MergeOneFinishing(s3, k, false, err, streaming, cfg);
    var s4 := MergeOne(s3, k, false, err, streaming, cfg);
    AppendOutputFinishing(s4, k, false, Running, message + "\n", cfg);
  }

  lemma RunOutcomeFits(s: State, k: Key, result: RunResult, cfg: Config)
    requires KeyInv(s, k, cfg) && k in s.executions
    ensures OutcomeFits(s.executions[k], RunOutcome(s, k, result).0, RunOutcome(s, k, result).1)
  {
  }

  lemma FinishRunInv(s: State, k: Key, result: RunResult, streaming: bool, now: nat, cfg: Config)
    requires Inv(s, cfg) && k in s.runners && s.runners[k].InBackend?
    ensures Inv(FinishRun(s, k, result, streaming, now, cfg), cfg)
  {
    assert KeyInv(s, k, cfg);
    var (status, code) := RunOutcome(s, k, result);
    var s1 := Collected(s, k, result, streaming, now, cfg);
    CollectedFinishing(s, k, result, streaming, now, cfg);
    RunOutcomeFits(s, k, result, cfg);
    FinalizeInv(s1, k, status, code, ResultMessage(result), "", now, cfg);
    PruneInv(Finalize(s1, k, status, code, ResultMessage(result), "", now, cfg), now, cfg);
  }

  // ---- Cancelling ----

  lemma CancelNotedIsTouch(s: State, k: Key, signal: int, cancels: multiset<Key>, cfg: Config)
    requires k in s.executions && OfExec(k) in s.feeds && k in s.signals && k in s.runners
    ensures CancelNoted(s, k, signal, cfg).(cancels := cancels)
            == Touch(s, k, s.executions[k].(cancelRequested := true, cancelSignal := signal),
                     Record(s.feeds[OfExec(k)], ExecEvent(s.executions[k].status, Message("cancel requested")),
                            BoundsOf(OfExec(k), cfg)),
                     s.runners[k], s.signals[k] + [signal], cancels)
  {
    assert s.runners[k := s.runners[k]] == s.runners;
  }

  lemma CancelFeedOk(e: Execution, l: Log<Event>, signal: int, b: Bounds, limit: int)
    requires ExecFeedOk(l, Some(e), limit) && !Final(e.status) && OpenFeed(l, b)
    ensures var l' := Record(l, ExecEvent(e.status, Message("cancel requested")), b);
            && ExecFeedOk(l', Some(e.(cancelRequested := true, cancelSignal := signal)), limit)
            && OpenFeed(l', b) && Evolves(l, l', b)
  {
    var noted := ExecEvent(e.status, Message("cancel requested"));
    EmitOpen(l, noted, b);
    MessageKeepsText(l.trace, noted);
  }

  lemma CancelQueuedInv(s: State, k: Key, n: int, now: nat, cfg: Config)
    requires Inv(s, cfg) && k in s.executions && s.executions[k].status.Queued?
    ensures Inv(Finalize(CancelNoted(s, k, n, cfg), k, Canceled, CancelExitCode(n), s.executions[k].message,
                         "execution canceled before start", now, cfg), cfg)
  {
    assert KeyInv(s, k, cfg);
    LiveFeedOpen(s, k, cfg);
    var e, l, b := s.executions[k], s.feeds[OfExec(k)], BoundsOf(OfExec(k), cfg);
    CancelFeedOk(e, l, n, b, cfg.outputLimit);
    var l' := Record(l, ExecEvent(e.status, Message("cancel requested")), b);
    TouchExcept(s, k, e.(cancelRequested := true, cancelSignal := n), l', s.runners[k], s.signals[k] + [n], s.cancels,
                cfg);
    CancelNotedIsTouch(s, k, n, s.cancels, cfg);
    FinalizeInv(CancelNoted(s, k, n, cfg), k, Canceled, CancelExitCode(n), e.message,
                "execution canceled before start", now, cfg);
  }

  lemma CancelRunningInv(s: State, k: Key, n: int, cfg: Config)
    requires Inv(s, cfg) && k in s.executions && s.executions[k].status.Running?
    ensures Inv(CancelNoted(s, k, n, cfg).(cancels := s.cancels + multiset{k}), cfg)
  {
    assert KeyInv(s, k, cfg);
    LiveFeedOpen(s, k, cfg);
    var e, l, b := s.executions[k], s.feeds[OfExec(k)], BoundsOf(OfExec(k), cfg);
    CancelFeedOk(e, l, n, b, cfg.outputLimit);
    var l' := Record(l, ExecEvent(e.status, Message("cancel requested")), b);
    TouchInv(s, k, e.(cancelRequested := true, cancelSignal := n), l', s.runners[k], s.signals[k] + [n],
             s.cancels + multiset{k}, cfg);
    CancelNotedIsTouch(s, k, n, s.cancels + multiset{k}, cfg);
  }

  lemma CancelInv(s: State, k: Key, signal: int, now: nat, cfg: Config)
    requires Inv(s, cfg)
    ensures Inv(Cancel(s, k, signal, now, cfg), cfg)
  {
    if Live(s.executions, k) {
      assert KeyInv(s, k, cfg);
      var n := NormalSignal(signal);
      if s.executions[k].status.Queued? {
        CancelQueuedInv(s, k, n, now, cfg);
        PruneInv(Finalize(CancelNoted(s, k, n, cfg), k, Canceled, CancelExitCode(n), s.executions[k].message,
                          "execution canceled before start", now, cfg), now, cfg);
      } else {
        CancelRunningInv(s, k, n, cfg);
      }
    }
  }

  lemma CallCancelInv(s: State, k: Key, cfg: Config)
    requires Inv(s, cfg) && k in s.cancels
    ensures Inv(CallCancel(s, k), cfg)
  {
    var s' := CallCancel(s, k);
    forall k' ensures KeyInv(s', k', cfg) {
      assert KeyInv(s, k', cfg);
    }
    forall id ensures SandboxInv(s', id) {
      assert SandboxInv(s, id);
    }
  }
}

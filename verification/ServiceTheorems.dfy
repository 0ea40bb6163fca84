/** Runs of the control service: any finite interleaving of its steps, and what holds in every one. */
module ServiceTheorems {
  import opened Seqs
  import opened EventLog
  import opened Followers
  import opened ServiceModel
  import opened ServiceInvariant
  import opened ServiceSteps
  import opened ServiceRunSteps
  import opened ServiceClientSteps
  import opened ServiceProgress

  /** Every enabled step keeps the invariant. */
  lemma StepInv(s: State, op: Op, cfg: Config)
    requires Inv(s, cfg) && Enabled(s, op, cfg)
    ensures Inv(Apply(s, op, cfg), cfg)
  {
    match op
    case OpCreateSandbox(id, backend, now) => CreateSandboxInv(s, id, backend, now, cfg);
    case OpTerminateBegin(id, now) => TerminateBeginInv(s, id, now, cfg);
    case OpTerminateEnd(id, ok, now) => TerminateEndInv(s, id, ok, now, cfg);
    case OpDownloadBegin(id) => DownloadBeginInv(s, id, cfg);
    case OpDownloadEnd(id) => DownloadEndInv(s, id, cfg);
    case OpCreateExecution(k, kind, now) => CreateExecutionInv(s, k, kind, now, cfg);
    case OpBeginRun(k, now) => BeginRunInv(s, k, now, cfg);
    case OpOutput(k, isStdout, chunk) => OutputChunkInv(s, k, isStdout, chunk, cfg);
    case OpAttach(k) => SetAttachInv(s, k, cfg);
    case OpFinishRun(k, result, streaming, now) => FinishRunInv(s, k, result, streaming, now, cfg);
    case OpCancel(k, signal, now) => CancelInv(s, k, signal, now, cfg);
    case OpCallCancel(k) => CallCancelInv(s, k, cfg);
    case OpOpen(session, k, token, ttl, now) => OpenSessionInv(s, session, k, token, ttl, now, cfg);
    case OpConsume(h, session, token, now) => ConsumeSessionInv(s, h, session, token, now, cfg);
    case OpRelease(h) => ReleaseSessionInv(s, h, cfg);
    case OpWatch(w, t, mode) => StartWatchInv(s, w, t, mode, cfg);
    case OpMove(w, m) => MoveWatchInv(s, w, m, cfg);
    case OpEndWatch(w) => EndWatchInv(s, w, cfg);
  }

  /** The `i`-th operation was possible and led from the `i`-th state to the next. */
  ghost predicate StepAt(states: seq<State>, ops: seq<Op>, cfg: Config, i: nat)
    requires |states| == |ops| + 1 && i < |ops|
  {
    Enabled(states[i], ops[i], cfg) && states[i + 1] == Apply(states[i], ops[i], cfg)
  }

  /** A run: any finite interleaving of operations from the start, with the states it passes through. */
  ghost predicate IsRun(states: seq<State>, ops: seq<Op>, cfg: Config) {
    && |states| == |ops| + 1 && states[0] == Initial()
    && forall i :: 0 <= i < |ops| ==> StepAt(states, ops, cfg, i)
  }

  lemma EmptyRun(cfg: Config)
    ensures IsRun([Initial()], [], cfg)
  {
  }

  /** A run goes on with any enabled step. */
  lemma ExtendRun(states: seq<State>, ops: seq<Op>, cfg: Config, op: Op)
    requires IsRun(states, ops, cfg) && Enabled(states[|ops|], op, cfg)
    ensures IsRun(states + [Apply(states[|ops|], op, cfg)], ops + [op], cfg)
  {
    var states', ops' := states + [Apply(states[|ops|], op, cfg)], ops + [op];
    forall i | 0 <= i < |ops'| ensures StepAt(states', ops', cfg, i) {
      assert i < |ops| ==> StepAt(states, ops, cfg, i);
    }
  }

  /** Every state of every run satisfies the invariant. */
  lemma {:induction false} RunInv(states: seq<State>, ops: seq<Op>, cfg: Config, n: nat)
    requires IsRun(states, ops, cfg) && n < |states|
    ensures Inv(states[n], cfg)
  {
    if n == 0 {
      InitialInv(cfg);
    } else {
      RunInv(states, ops, cfg, n - 1);
      assert StepAt(states, ops, cfg, n - 1);
      StepInv(states[n - 1], ops[n - 1], cfg);
    }
  }

  // ---- Exclusivity ----

  /** The backend is running this execution. */
  predicate InFlight(s: State, k: Key) {
    k in s.runners && s.runners[k].InBackend?
  }

  /** A sandbox has at most one live execution, the one it names active, and never together with a download; at most
      one backend run or download is in flight for it, even after the sandbox has been pruned. */
  lemma OneUserPerSandbox(states: seq<State>, ops: seq<Op>, cfg: Config, n: nat)
    requires IsRun(states, ops, cfg) && n < |states|
    ensures var s := states[n];
            && (forall k :: Live(s.executions, k) ==>
                  k.sandbox in s.sandboxes && s.sandboxes[k.sandbox].active == Some(k.exec)
                      && !s.sandboxes[k.sandbox].download)
            && (forall j, k :: Live(s.executions, j) && Live(s.executions, k) && j.sandbox == k.sandbox ==> j == k)
            && (forall j, k :: InFlight(s, j) && InFlight(s, k) && j.sandbox == k.sandbox ==> j == k)
            && (forall k :: InFlight(s, k) ==> k.sandbox !in s.downloads)
            && (forall id :: s.downloads[id] <= 1)
  {
    var s := states[n];
    RunInv(states, ops, cfg, n);
    forall k ensures Live(s.executions, k) ==>
        k.sandbox in s.sandboxes && s.sandboxes[k.sandbox].active == Some(k.exec) && !s.sandboxes[k.sandbox].download
    {
      assert KeyInv(s, k, cfg);
    }
    forall k | InFlight(s, k) ensures Live(s.executions, k) && k.sandbox !in s.downloads {
      assert KeyInv(s, k, cfg);
      assert SandboxInv(s, k.sandbox);
    }
    forall id ensures s.downloads[id] <= 1 {
      assert SandboxInv(s, id);
    }
  }

  /** For a ready sandbox on a known backend a new execution is refused exactly when the sandbox has a live execution
      or a download in flight: pointers to finished or pruned executions never block. */
  lemma StalePointersNeverBlock(states: seq<State>, ops: seq<Op>, cfg: Config, n: nat, id: Id)
    requires IsRun(states, ops, cfg) && n < |states|
    requires var s := states[n];
             id in s.sandboxes && s.sandboxes[id].status.Ready? && s.sandboxes[id].backend in cfg.backends
    ensures var s := states[n];
            && (CreateVerdict(s, id, cfg).Accepted? <==> !HasLive(s.executions, id) && id !in s.downloads)
            && (s.sandboxes[id].backend in cfg.downloaders ==>
                  (DownloadVerdict(s, id, cfg).Accepted? <==> !HasLive(s.executions, id) && id !in s.downloads))
  {
    var s := states[n];
    RunInv(states, ops, cfg, n);
    assert SandboxInv(s, id);
    if HasLive(s.executions, id) {
      var k :| k in s.executions && k.sandbox == id && Live(s.executions, k);
      assert KeyInv(s, k, cfg);
      assert Key(id, s.sandboxes[id].active.value) == k;
    } else if s.sandboxes[id].active.Some? {
      assert !Live(s.executions, Key(id, s.sandboxes[id].active.value));
    }
  }

  // ---- Cancellation ----

  /** No cancel is lost: a stored final execution is CANCELED exactly when a cancel or terminate was accepted, with the
      exit code of the last accepted signal; a running one can be cancelled, and an accepted cancel has reached its
      run context or is on its way; nothing ever times out. */
  lemma NoLostCancel(states: seq<State>, ops: seq<Op>, cfg: Config, n: nat, k: Key)
    requires IsRun(states, ops, cfg) && n < |states| && k in states[n].executions
    ensures var s := states[n];
            && k in s.signals
            && var e, signals := s.executions[k], s.signals[k];
            && (Final(e.status) ==> (e.status.Canceled? <==> signals != []))
            && (e.status.Canceled? ==> e.exitCode == CancelExitCode(signals[|signals| - 1]) && e.exitCode != 0)
            && (e.status.Succeeded? ==> signals == [] && e.exitCode == 0)
            && (e.status.Running? ==> e.hasCancel)
            && (e.status.Running? && signals != [] ==> k in s.cancels || k in s.ctxCanceled)
            && (k in s.cancels || k in s.ctxCanceled ==> signals != [])
            && !e.status.TimedOut?
  {
    RunInv(states, ops, cfg, n);
    assert KeyInv(states[n], k, cfg);
  }

  /** The same read off the event trace, whether the execution is stored or pruned: a trace that is done ends with an
      exit event that is CANCELED exactly when a cancel or terminate was accepted, with the last signal's code. */
  lemma ExitEventTellsOfCancels(states: seq<State>, ops: seq<Op>, cfg: Config, n: nat, k: Key)
    requires IsRun(states, ops, cfg) && n < |states| && OfExec(k) in states[n].feeds
    requires states[n].feeds[OfExec(k)].doneClosed
    ensures var s := states[n];
            var trace := s.feeds[OfExec(k)].trace;
            k in s.signals && trace != [] && ExitFits(trace[|trace| - 1], s.signals[k])
  {
    RunInv(states, ops, cfg, n);
    assert KeyInv(states[n], k, cfg);
  }

  // ---- Live executions keep their sandbox ----

  /** A live execution's sandbox is stored; if that sandbox is no longer ready, the execution is running and was asked
      to cancel. So a runner that starts finds the sandbox ready and the backend known. */
  lemma LiveExecutionsKeepTheirSandbox(states: seq<State>, ops: seq<Op>, cfg: Config, n: nat, k: Key)
    requires IsRun(states, ops, cfg) && n < |states| && Live(states[n].executions, k)
    ensures var s := states[n];
            && k.sandbox in s.sandboxes
            && (!s.sandboxes[k.sandbox].status.Ready? ==>
                s.executions[k].status.Running? && s.executions[k].cancelRequested)
            && (s.executions[k].status.Queued? ==>
                  s.sandboxes[k.sandbox].status.Ready? && s.sandboxes[k.sandbox].backend in cfg.backends
                  && forall now :: BeginRun(s, k, now, cfg) == Started(s, k, now, cfg))
  {
    RunInv(states, ops, cfg, n);
    assert KeyInv(states[n], k, cfg);
  }

  // ---- Interactive sessions ----

  /** Per execution, pending sessions plus attachment is at most one, and each belongs to a stored, live, interactive
      execution; two connections never hold the same execution, so a release detaches only the releasing
      connection's own attachment. */
  lemma OneAttachmentPerExecution(states: seq<State>, ops: seq<Op>, cfg: Config, n: nat)
    requires IsRun(states, ops, cfg) && n < |states|
    ensures var s := states[n];
            && (forall i :: i in s.sessions ==>
                LiveInteractive(s.executions, s.sessions[i].key) && s.sessions[i].key !in s.attached)
            && (forall i, j :: i in s.sessions && j in s.sessions && s.sessions[i].key == s.sessions[j].key ==> i == j)
            && (forall k :: k in s.attached ==> LiveInteractive(s.executions, k))
            && (forall h :: h in s.handlers ==>
                  var s' := ReleaseSession(s, h);
                  forall g :: g in s.handlers && g != h && s.handlers[g] in s.attached ==> s.handlers[g] in s'.attached)
  {
    RunInv(states, ops, cfg, n);
  }

  /** The `i`-th operation consumed session `id` successfully. */
  ghost predicate ConsumesAt(states: seq<State>, ops: seq<Op>, i: nat, id: Id)
    requires |states| == |ops| + 1 && i < |ops|
  {
    ops[i].OpConsume? && ops[i].session == id && CanConsume(states[i], id, ops[i].token, ops[i].now)
  }

  lemma RunStepProgress(states: seq<State>, ops: seq<Op>, cfg: Config, i: nat)
    requires IsRun(states, ops, cfg) && i < |ops|
    ensures Progress(states[i], states[i + 1]) && states[i].consumed <= states[i + 1].consumed
    ensures ops[i].OpConsume? && CanConsume(states[i], ops[i].session, ops[i].token, ops[i].now) ==>
              ops[i].session in states[i + 1].consumed
  {
    RunInv(states, ops, cfg, i);
    assert StepAt(states, ops, cfg, i);
    StepProgress(states[i], ops[i], cfg);
  }

  lemma {:induction false} ConsumedStays(states: seq<State>, ops: seq<Op>, cfg: Config, i: nat, n: nat, id: Id)
    requires IsRun(states, ops, cfg) && i < n < |states| && ConsumesAt(states, ops, i, id)
    ensures id in states[n].consumed
  {
    RunStepProgress(states, ops, cfg, n - 1);
    if n > i + 1 {
      ConsumedStays(states, ops, cfg, i, n - 1, id);
    }
  }

  /** A session id is consumed successfully at most once in any run. */
  lemma ConsumedAtMostOnce(states: seq<State>, ops: seq<Op>, cfg: Config, i: nat, j: nat, id: Id)
    requires IsRun(states, ops, cfg) && i < |ops| && j < |ops|
    requires ConsumesAt(states, ops, i, id) && ConsumesAt(states, ops, j, id)
    ensures i == j
  {
    if i < j {
      ConsumedStays(states, ops, cfg, i, j, id);
      RunInv(states, ops, cfg, j);
    } else if j < i {
      ConsumedStays(states, ops, cfg, j, i, id);
      RunInv(states, ops, cfg, i);
    }
  }

  // ---- Delivery ----

  /** In every reachable state, what any follower was given is a contiguous, duplicate-free stretch of the full trace,
      ending at its end while the follower is registered; no channel was closed twice or sent to after closing. */
  lemma DeliveryHasNoGaps(states: seq<State>, ops: seq<Op>, cfg: Config, n: nat, t: Topic, sub: nat)
    requires IsRun(states, ops, cfg) && n < |states| && t in states[n].feeds && sub in states[n].feeds[t].chans
    ensures var l := states[n].feeds[t];
            var c := l.chans[sub];
            && c.from + |c.Content()| <= |l.trace| && c.Content() == l.trace[c.from..c.from + |c.Content()|]
            && (sub in l.subs ==> c.from + |c.Content()| == |l.trace|)
            && c.closes <= 1 && c.lateSends == 0 && l.doneCloses <= 1 && (sub in l.subs <==> c.closes == 0)
  {
    var s := states[n];
    RunInv(states, ops, cfg, n);
    assert FeedOk(s.feeds, t, cfg);
    assert ChanOk(s.feeds[t].chans[sub], s.feeds[t].trace, sub in s.feeds[t].subs, s.feeds[t].doneClosed);
  }

  lemma SubscribersStartInside(l: Log<Event>, b: Bounds, sub: nat)
    requires LogOk(l, b) && sub in l.chans && l.trace != []
    ensures l.chans[sub].from <= |l.trace| && (b.limit > 0 ==> l.chans[sub].from < |l.trace|)
  {
    assert ChanOk(l.chans[sub], l.trace, sub in l.subs, l.doneClosed);
  }

  /** A stream that follows an execution and returns nil has sent everything from its snapshot to the exit event, which
      is the last event of the trace, exactly when its channel did not overflow and its snapshot does not start after
      the exit; whether or not the execution has been pruned meanwhile. A snapshot starts after the exit only when no
      history is retained and the stream subscribed after the end. */
  lemma FollowerDeliversThroughExit(states: seq<State>, ops: seq<Op>, cfg: Config, n: nat, w: nat)
    requires IsRun(states, ops, cfg) && n < |states| && w in states[n].watches
    requires var watch := states[n].watches[w];
             watch.topic.OfExec? && watch.follower.mode.Follow? && watch.follower.pc == Returned(Finished)
    ensures var s := states[n];
            var t, f := s.watches[w].topic, s.watches[w].follower;
            && t in s.feeds && f.sub in s.feeds[t].chans
            && (!s.feeds[t].chans[f.sub].reason.Overflowed? && StartsInside(s.feeds[t], f.sub) <==>
                  f.sent == Since(s.feeds[t], f.sub) && f.sent != [] && IsExit(f.sent[|f.sent| - 1]))
            && (cfg.execEventLimit > 0 ==> StartsInside(s.feeds[t], f.sub))
  {
    RunInv(states, ops, cfg, n);
    FinishedFollower(states[n], cfg, w);
  }

  lemma FinishedFollower(s: State, cfg: Config, w: nat)
    requires Inv(s, cfg) && w in s.watches && s.watches[w].topic.OfExec?
    requires s.watches[w].follower.mode.Follow? && s.watches[w].follower.pc == Returned(Finished)
    ensures var t, f := s.watches[w].topic, s.watches[w].follower;
            && t in s.feeds && f.sub in s.feeds[t].chans
            && (!s.feeds[t].chans[f.sub].reason.Overflowed? && StartsInside(s.feeds[t], f.sub) <==>
                  f.sent == Since(s.feeds[t], f.sub) && f.sent != [] && IsExit(f.sent[|f.sent| - 1]))
            && (cfg.execEventLimit > 0 ==> StartsInside(s.feeds[t], f.sub))
  {
    var t, f := s.watches[w].topic, s.watches[w].follower;
    assert WatchOk(s.feeds, s.watches, w) && FeedOk(s.feeds, t, cfg);
    assert KeyInv(s, t.key, cfg);
    FinishedIsCompleteIffNoOverflow(s.feeds[t], BoundsOf(t, cfg), f, IsExit);
    SubscribersStartInside(s.feeds[t], BoundsOf(t, cfg), f.sub);
  }

  /** A sandbox event stream that follows and returns nil has sent everything to the end of the sandbox's trace exactly
      when its channel did not overflow. */
  lemma SandboxFollowerIsComplete(states: seq<State>, ops: seq<Op>, cfg: Config, n: nat, w: nat)
    requires IsRun(states, ops, cfg) && n < |states| && w in states[n].watches
    requires var watch := states[n].watches[w];
             watch.topic.OfSandbox? && watch.follower.mode.Follow? && watch.follower.pc == Returned(Finished)
    ensures var s := states[n];
            var t, f := s.watches[w].topic, s.watches[w].follower;
            && t in s.feeds && f.sub in s.feeds[t].chans
            && (!s.feeds[t].chans[f.sub].reason.Overflowed? <==> f.sent == Since(s.feeds[t], f.sub))
            && (t.id in s.sandboxes ==> s.sandboxes[t.id].status.Stopped?)
  {
    var s := states[n];
    var t, f := s.watches[w].topic, s.watches[w].follower;
    RunInv(states, ops, cfg, n);
    assert WatchOk(s.feeds, s.watches, w) && FeedOk(s.feeds, t, cfg);
    assert SandboxInv(s, t.id);
    FinishedIsCompleteIffNoOverflow(s.feeds[t], BoundsOf(t, cfg), f, IsExit);
  }

  /** The interactive bridge: one that forwarded an exit forwarded everything before it, and one that ended on its own
      without an exit had its channel overflow, or joined an ended execution of which no history is retained. */
  lemma BridgeForwardsThroughExit(states: seq<State>, ops: seq<Op>, cfg: Config, n: nat, w: nat)
    requires IsRun(states, ops, cfg) && n < |states| && w in states[n].watches
    requires var watch := states[n].watches[w]; watch.topic.OfExec? && watch.follower.mode.Bridge?
    ensures var s := states[n];
            var t, f := s.watches[w].topic, s.watches[w].follower;
            && t in s.feeds && f.sub in s.feeds[t].chans
            && (f.pc == Returned(Exited) ==> StartsInside(s.feeds[t], f.sub) && f.sent == Since(s.feeds[t], f.sub))
            && (f.pc == Returned(Silent) ==>
                  s.feeds[t].chans[f.sub].reason.Overflowed? || (!StartsInside(s.feeds[t], f.sub) && f.sent == []))
            && (cfg.execEventLimit > 0 ==> StartsInside(s.feeds[t], f.sub))
  {
    RunInv(states, ops, cfg, n);
    BridgeState(states[n], cfg, w);
  }

  lemma BridgeState(s: State, cfg: Config, w: nat)
    requires Inv(s, cfg) && w in s.watches && s.watches[w].topic.OfExec? && s.watches[w].follower.mode.Bridge?
    ensures var t, f := s.watches[w].topic, s.watches[w].follower;
            && t in s.feeds && f.sub in s.feeds[t].chans
            && (f.pc == Returned(Exited) ==> StartsInside(s.feeds[t], f.sub) && f.sent == Since(s.feeds[t], f.sub))
            && (f.pc == Returned(Silent) ==>
                  s.feeds[t].chans[f.sub].reason.Overflowed? || (!StartsInside(s.feeds[t], f.sub) && f.sent == []))
            && (cfg.execEventLimit > 0 ==> StartsInside(s.feeds[t], f.sub))
  {
    var t, f := s.watches[w].topic, s.watches[w].follower;
    assert WatchOk(s.feeds, s.watches, w) && FeedOk(s.feeds, t, cfg);
    assert KeyInv(s, t.key, cfg);
    SubscribersStartInside(s.feeds[t], BoundsOf(t, cfg), f.sub);
    BridgeEndsAtExit(s.feeds[t], BoundsOf(t, cfg), f, IsExit);
  }

  // ---- Lifecycle ----

  /** In every reachable state each execution's trace has an exit event exactly at its end exactly when it is final or
      pruned, done is closed exactly then, the exit event carries the stored status and code, and a final execution
      has no cancel or attach handle left. */
  lemma TraceEndsWithTheOnlyExit(states: seq<State>, ops: seq<Op>, cfg: Config, n: nat, k: Key)
    requires IsRun(states, ops, cfg) && n < |states| && OfExec(k) in states[n].feeds
    ensures var s := states[n];
            var l := s.feeds[OfExec(k)];
            && l.trace != [] && (l.doneClosed <==> !Live(s.executions, k))
            && (forall i :: 0 <= i < |l.trace| && IsExit(l.trace[i]) ==> l.doneClosed && i == |l.trace| - 1)
            && (l.doneClosed ==> IsExit(l.trace[|l.trace| - 1]))
            && (k in s.executions && Final(s.executions[k].status) ==>
                  && l.trace[|l.trace| - 1].payload.code == s.executions[k].exitCode
                  && l.trace[|l.trace| - 1].payload.status == s.executions[k].status
                  && !s.executions[k].hasCancel && !s.executions[k].hasAttach)
  {
    RunInv(states, ops, cfg, n);
    assert KeyInv(states[n], k, cfg);
  }

  /** However a run continues, a stored execution's status only moves forward, a final execution never changes again
      while it is stored, and its trace only grows until it is done. */
  lemma {:induction false} LifecycleOnlyMovesForward(states: seq<State>, ops: seq<Op>, cfg: Config, m: nat, n: nat,
                                                     k: Key)
    requires IsRun(states, ops, cfg) && m <= n < |states| && OfExec(k) in states[m].feeds
    ensures OfExec(k) in states[n].feeds && Grows(states[m].feeds[OfExec(k)], states[n].feeds[OfExec(k)])
    ensures k in states[n].executions ==>
              k in states[m].executions && Moves(states[m].executions[k], states[n].executions[k])
  {
    if m < n {
      LifecycleOnlyMovesForward(states, ops, cfg, m, n - 1, k);
      RunStepProgress(states, ops, cfg, n - 1);
      assert ExecProgress(states[n - 1], states[n], k);
      assert FeedProgress(states[n - 1].feeds, states[n].feeds, OfExec(k));
    }
  }

  // ---- Keys ----

  /** Ids without a slash: the string under which an execution is filed determines sandbox and execution. */
  lemma ExecutionKeyInjective(j: Key, k: Key)
    requires SlashFree(j.sandbox) && SlashFree(k.sandbox)
    requires ExecutionKey(j) == ExecutionKey(k)
    ensures j == k
  {
    var x, y := ExecutionKey(j), ExecutionKey(k);
    assert x[|j.sandbox|] == '/' && y[|k.sandbox|] == '/';
    assert forall i :: 0 <= i < |j.sandbox| ==> x[i] != '/';
    assert forall i :: 0 <= i < |k.sandbox| ==> y[i] != '/';
    assert |j.sandbox| == |k.sandbox|;
    assert j.sandbox == x[..|j.sandbox|] && k.sandbox == y[..|k.sandbox|];
    assert j.exec == x[|j.sandbox| + 1..] && k.exec == y[|k.sandbox| + 1..];
  }

  /** A request's ids are arbitrary text, but it can only name a stored execution by that execution's own two ids. */
  lemma RequestsNameOneExecution(request: Key, stored: Key)
    requires SlashFree(stored.sandbox) && SlashFree(stored.exec)
    requires ExecutionKey(request) == ExecutionKey(stored)
    ensures request == stored
  {
    var x, y := ExecutionKey(request), ExecutionKey(stored);
    var n := |request.sandbox|;
    assert x[n] == '/';
    assert n == |stored.sandbox|;
    assert request.sandbox == x[..n] && stored.sandbox == y[..n];
    assert request.exec == x[n + 1..] && stored.exec == y[n + 1..];
  }
}

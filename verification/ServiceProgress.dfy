/** What one step can change about executions and feeds that already exist. */
module ServiceProgress {
  import opened Seqs
  import opened EventLog
  import opened Followers
  import opened Retention
  import opened ServiceModel
  import opened ServiceInvariant
  import opened ServiceSteps
  import opened ServiceRunSteps
  import opened ServiceClientSteps

  /** QUEUED to RUNNING to final, or QUEUED to CANCELED; final records are frozen; a cancel request stays. */
  predicate Moves(e: Execution, e': Execution) {
    if Final(e.status) then e' == e
    else
      && e'.kind == e.kind && (e.cancelRequested ==> e'.cancelRequested)
      && match e.status
         case Queued => e'.status.Queued? || e'.status.Running? || Final(e'.status)
         case _ => e'.status == e.status || Final(e'.status)
  }

  /** An execution in the new state is an old one that moved forward, or a newly created, queued one. */
  ghost predicate ExecProgress(s: State, s': State, k: Key) {
    k in s'.executions ==>
      if k in s.executions then Moves(s.executions[k], s'.executions[k])
      else OfExec(k) !in s.feeds && s'.executions[k].status.Queued?
  }

  ghost predicate FeedProgress(feeds: Feeds, feeds': Feeds, t: Topic) {
    t in feeds ==> t in feeds' && Grows(feeds[t], feeds'[t])
  }

  ghost predicate Progress(s: State, s': State) {
    && (forall k :: ExecProgress(s, s', k))
    && (forall t :: FeedProgress(s.feeds, s'.feeds, t))
  }

  lemma EvolutionIsProgress(feeds: Feeds, feeds': Feeds, cfg: Config)
    requires FeedsEvolve(feeds, feeds', cfg)
    ensures forall t :: FeedProgress(feeds, feeds', t)
  {
    forall t ensures FeedProgress(feeds, feeds', t) {
      assert FeedEvolves(feeds, feeds', t, cfg);
    }
  }

  // ---- Pruning afterwards ----

  lemma PruneShape(s: State, now: nat, cfg: Config)
    ensures var s' := Prune(s, now, cfg);
            && s'.consumed == s.consumed
            && (forall k :: k in s'.executions ==> k in s.executions && s'.executions[k] == s.executions[k])
  {
  }

  /** Pruning drops some execution feeds and then some sandbox feeds. */
  lemma PruneFeeds(s: State, now: nat, cfg: Config) returns (gone: set<Topic>, gone1: set<Topic>)
    ensures Prune(s, now, cfg).feeds == DropFeeds(DropFeeds(s.feeds, gone), gone1)
  {
    gone := PruneExecutionsFeeds(s, now, cfg);
    gone1 := PruneSandboxesFeeds(PruneExecutions(s, now, cfg), now, cfg);
  }

  lemma PruneExecutionsFeeds(s: State, now: nat, cfg: Config) returns (gone: set<Topic>)
    ensures PruneExecutions(s, now, cfg).feeds == DropFeeds(s.feeds, gone)
  {
    gone := Topics(s.executions.Keys - KeptExecutions(s.executions, now, cfg));
  }

  lemma PruneSandboxesFeeds(s: State, now: nat, cfg: Config) returns (gone: set<Topic>)
    ensures PruneSandboxes(s, now, cfg).feeds == DropFeeds(s.feeds, gone)
  {
    gone := set id | id in s.sandboxes.Keys - KeptSandboxes(s, now, cfg) :: OfSandbox(id);
  }

  lemma PruneEvolves(s: State, now: nat, cfg: Config)
    requires FeedsOk(s.feeds, cfg)
    ensures FeedsEvolve(s.feeds, Prune(s, now, cfg).feeds, cfg)
  {
    var gone, gone1 := PruneFeeds(s, now, cfg);
    DropTwiceEvolves(s.feeds, gone, gone1, cfg);
  }

  lemma DropTwiceEvolves(feeds: Feeds, gone: set<Topic>, gone1: set<Topic>, cfg: Config)
    requires FeedsOk(feeds, cfg)
    ensures FeedsEvolve(feeds, DropFeeds(DropFeeds(feeds, gone), gone1), cfg)
  {
    var feeds1 := DropFeeds(feeds, gone);
    DropFeedsEvolve(feeds, gone, cfg);
    DropFeedsEvolve(feeds1, gone1, cfg);
    FeedsEvolveTrans(feeds, feeds1, DropFeeds(feeds1, gone1), cfg);
  }

  /** Pruning the outcome of a step keeps its progress. */
  lemma ProgressThenPrune(s: State, s1: State, now: nat, cfg: Config)
    requires (forall k :: ExecProgress(s, s1, k)) && FeedsEvolve(s.feeds, s1.feeds, cfg)
    ensures Progress(s, Prune(s1, now, cfg)) && Prune(s1, now, cfg).consumed == s1.consumed
  {
    var s' := Prune(s1, now, cfg);
    PruneShape(s1, now, cfg);
    PruneEvolves(s1, now, cfg);
    FeedsEvolveTrans(s.feeds, s1.feeds, s'.feeds, cfg);
    EvolutionIsProgress(s.feeds, s'.feeds, cfg);
    forall k ensures ExecProgress(s, s', k) {
      assert ExecProgress(s, s1, k);
    }
  }

  lemma SameExecutionsProgress(s: State, s': State)
    requires s'.executions == s.executions
    ensures forall k :: ExecProgress(s, s', k)
  {
  }

  // ---- Sandboxes ----

  lemma CreateSandboxProgress(s: State, id: Id, backend: string, now: nat, cfg: Config)
    requires Inv(s, cfg) && OfSandbox(id) !in s.feeds
    ensures Progress(s, CreateSandbox(s, id, backend, now, cfg))
    ensures CreateSandbox(s, id, backend, now, cfg).consumed == s.consumed
  {
    var event := SandboxEvent(Ready, "sandbox created and ready");
    var s1 := s.(sandboxes := s.sandboxes[id := Sandbox(backend, Ready, None, false, now, now)],
                 feeds := s.feeds[OfSandbox(id) := Record(EmptyLog(), event, BoundsOf(OfSandbox(id), cfg))]);
    NewFeedEvolves(s.feeds, OfSandbox(id), event, cfg);
    SameExecutionsProgress(s, s1);
    ProgressThenPrune(s, s1, now, cfg);
  }

  lemma TerminateExecutionsProgress(s: State, id: Id, now: nat, cfg: Config)
    ensures forall k :: ExecProgress(s, TerminateExecutions(s, id, now, cfg), k)
    ensures TerminateExecutions(s, id, now, cfg).consumed == s.consumed
  {
  }

  lemma TerminateBeginProgress(s: State, id: Id, now: nat, cfg: Config)
    requires Inv(s, cfg)
    ensures Progress(s, TerminateBegin(s, id, now, cfg)) && TerminateBegin(s, id, now, cfg).consumed == s.consumed
  {
    var s' := TerminateBegin(s, id, now, cfg);
    if id in s.sandboxes && !s.sandboxes[id].status.Stopped? {
      var s1 := MarkStopping(s, id, now, cfg);
      assert SandboxInv(s, id);
      MarkStoppingMarks(s, id, now, cfg);
      TerminateFeeds(s, s1, id, now, cfg);
      EvolutionIsProgress(s.feeds, s'.feeds, cfg);
      TerminateExecutionsProgress(s1, id, now, cfg);
      forall k ensures ExecProgress(s, s', k) {
        assert ExecProgress(s1, TerminateExecutions(s1, id, now, cfg), k);
        assert Get(s1.feeds, OfExec(k)) == Get(s.feeds, OfExec(k));
      }
    }
  }

  lemma StopEvolves(s: State, id: Id, now: nat, cfg: Config)
    requires FeedsOk(s.feeds, cfg) && SandboxInv(s, id) && id in s.sandboxes && !s.sandboxes[id].status.Stopped?
    ensures FeedsEvolve(s.feeds,
                        Seal(SetSandbox(s, id, Stopped, "sandbox terminated", now, cfg).feeds, OfSandbox(id)), cfg)
  {
    var t, feeds1 := OfSandbox(id), SetSandbox(s, id, Stopped, "sandbox terminated", now, cfg).feeds;
    SandboxEmitEvolves(s, id, Stopped, "sandbox terminated", cfg);
    assert FeedOk(feeds1, t, cfg);
    CloseDoneEvolves(feeds1[t], BoundsOf(t, cfg));
    OneFeedEvolves(feeds1, t, CloseDone(feeds1[t]), cfg);
    FeedsEvolveTrans(s.feeds, feeds1, Seal(feeds1, t), cfg);
  }

  lemma TerminateEndProgress(s: State, id: Id, ok: bool, now: nat, cfg: Config)
    requires Inv(s, cfg)
    ensures Progress(s, TerminateEnd(s, id, ok, now, cfg)) && TerminateEnd(s, id, ok, now, cfg).consumed == s.consumed
  {
    var s1 := s.(terminating := s.terminating - multiset{id});
    if ok {
      if id in s.sandboxes && !s.sandboxes[id].status.Stopped? {
        assert SandboxInv(s, id);
        StopEvolves(s, id, now, cfg);
        var stopped := SetSandbox(s1, id, Stopped, "sandbox terminated", now, cfg);
        var s2 := stopped.(feeds := Seal(stopped.feeds, OfSandbox(id)));
        SameExecutionsProgress(s, s2);
        ProgressThenPrune(s, s2, now, cfg);
      } else {
        FeedsEvolveRefl(s.feeds, cfg);
        SameExecutionsProgress(s, s1);
        ProgressThenPrune(s, s1, now, cfg);
      }
    }
  }

  // ---- Executions ----

  lemma CreateExecutionProgress(s: State, k: Key, kind: Kind, now: nat, cfg: Config)
    requires Inv(s, cfg) && OfExec(k) !in s.feeds
    ensures Progress(s, CreateExecution(s, k, kind, now, cfg))
    ensures CreateExecution(s, k, kind, now, cfg).consumed == s.consumed
  {
    if CreateVerdict(s, k.sandbox, cfg).Accepted? {
      var s1 := Enqueued(s, k, kind, now, cfg);
      assert KeyInv(s, k, cfg);
      NewFeedEvolves(s.feeds, OfExec(k), ExecEvent(Queued, Message("execution queued")), cfg);
      forall k' ensures ExecProgress(s, s1, k') {
      }
      ProgressThenPrune(s, s1, now, cfg);
    }
  }

  lemma OpenRecordEvolves(feeds: Feeds, k: Key, e: Event, cfg: Config)
    requires FeedsOk(feeds, cfg) && OfExec(k) in feeds && OpenFeed(feeds[OfExec(k)], BoundsOf(OfExec(k), cfg))
    ensures FeedsEvolve(feeds, Emit(feeds, OfExec(k), e, cfg), cfg)
  {
    RecordEvolves(feeds[OfExec(k)], e, BoundsOf(OfExec(k), cfg));
    OneFeedEvolves(feeds, OfExec(k), Record(feeds[OfExec(k)], e, BoundsOf(OfExec(k), cfg)), cfg);
  }

  lemma FinalizeProgress(s: State, s1: State, k: Key, status: Status, code: int, message: string, exitMessage: string,
                         now: nat, cfg: Config)
    requires k in s1.executions && k in s.executions && !Final(s.executions[k].status) && Final(status)
    requires forall k' :: ExecProgress(s, s1, k')
    requires s1.executions[k].kind == s.executions[k].kind
    requires s.executions[k].cancelRequested ==> s1.executions[k].cancelRequested
    ensures forall k' :: ExecProgress(s, Finalize(s1, k, status, code, message, exitMessage, now, cfg), k')
  {
    var s' := Finalize(s1, k, status, code, message, exitMessage, now, cfg);
    forall k' ensures ExecProgress(s, s', k') {
      assert ExecProgress(s, s1, k');
    }
  }

  lemma FinalizeEvolves(s: State, k: Key, status: Status, code: int, message: string, exitMessage: string, now: nat,
                        cfg: Config)
    requires FeedsOk(s.feeds, cfg) && FinishingAt(s, k, cfg)
    ensures FeedsEvolve(s.feeds, Finalize(s, k, status, code, message, exitMessage, now, cfg).feeds, cfg)
  {
    var t, e := OfExec(k), ExitEvent(status, code, message, exitMessage);
    EmitExit(s.feeds[t], e, BoundsOf(t, cfg));
    var l' := CloseDone(Record(s.feeds[t], e, BoundsOf(t, cfg)));
    assert Seal(Emit(s.feeds, t, e, cfg), t) == s.feeds[t := l'];
    OneFeedEvolves(s.feeds, t, l', cfg);
  }

  lemma BeginRunProgress(s: State, k: Key, now: nat, cfg: Config)
    requires Inv(s, cfg) && k in s.runners && s.runners[k].Spawned?
    ensures Progress(s, BeginRun(s, k, now, cfg)) && BeginRun(s, k, now, cfg).consumed == s.consumed
  {
    if Live(s.executions, k) {
      RunnerFindsSandboxReady(s, k, cfg);
      assert KeyInv(s, k, cfg);
      LiveFeedOpen(s, k, cfg);
      var s' := Started(s, k, now, cfg);
      OpenRecordEvolves(s.feeds, k, ExecEvent(Running, Message("execution started")), cfg);
      EvolutionIsProgress(s.feeds, s'.feeds, cfg);
      forall k' ensures ExecProgress(s, s', k') {
      }
    }
  }

  lemma OutputChunkProgress(s: State, k: Key, isStdout: bool, chunk: string, cfg: Config)
    requires Inv(s, cfg)
    ensures Progress(s, OutputChunk(s, k, isStdout, chunk, cfg))
    ensures OutputChunk(s, k, isStdout, chunk, cfg).consumed == s.consumed
  {
    var s' := OutputChunk(s, k, isStdout, chunk, cfg);
    if Live(s.executions, k) && chunk != "" {
      assert KeyInv(s, k, cfg);
      LiveFeedOpen(s, k, cfg);
      OpenRecordEvolves(s.feeds, k, ExecEvent(s.executions[k].status, OutputPayload(isStdout, chunk)), cfg);
      EvolutionIsProgress(s.feeds, s'.feeds, cfg);
      forall k' ensures ExecProgress(s, s', k') {
      }
    }
  }

  // ---- Finishing a run ----

  /** `s'` is `s` with execution `k` still live, its request unchanged, and its feed evolved. */
  ghost predicate Gathering(s: State, s': State, k: Key, cfg: Config) {
    && (forall k' :: k' != k ==> Get(s'.executions, k') == Get(s.executions, k'))
    && k in s.executions && k in s'.executions
    && s'.executions[k].kind == s.executions[k].kind && s'.executions[k].status == s.executions[k].status
    && s'.executions[k].cancelRequested == s.executions[k].cancelRequested
    && FeedsEvolve(s.feeds, s'.feeds, cfg) && s'.consumed == s.consumed
  }

  lemma GatheringTrans(a: State, b: State, c: State, k: Key, cfg: Config)
    requires Gathering(a, b, k, cfg) && Gathering(b, c, k, cfg)
    ensures Gathering(a, c, k, cfg)
  {
    FeedsEvolveTrans(a.feeds, b.feeds, c.feeds, cfg);
    forall k' | k' != k ensures Get(c.executions, k') == Get(a.executions, k') {
      assert Get(b.executions, k') == Get(a.executions, k');
    }
  }

  lemma AppendOutputGathers(s: State, k: Key, isStdout: bool, status: Status, chunk: string, cfg: Config)
    requires FeedsOk(s.feeds, cfg) && FinishingAt(s, k, cfg)
    ensures Gathering(s, AppendOutput(s, k, isStdout, status, chunk, cfg), k, cfg)
  {
    if chunk == "" {
      FeedsEvolveRefl(s.feeds, cfg);
    } else {
      OpenRecordEvolves(s.feeds, k, ExecEvent(status, OutputPayload(isStdout, chunk)), cfg);
    }
  }

  lemma ReplaceOutputGathers(s: State, k: Key, isStdout: bool, status: Status, text: string, cfg: Config)
    requires FeedsOk(s.feeds, cfg) && FinishingAt(s, k, cfg)
    ensures Gathering(s, ReplaceOutput(s, k, isStdout, status, text, cfg), k, cfg)
  {
    if text == "" {
      FeedsEvolveRefl(s.feeds, cfg);
    } else {
      OpenRecordEvolves(s.feeds, k, ExecEvent(status, OutputPayload(isStdout, text)), cfg);
    }
  }

  lemma MergeOneGathers(s: State, k: Key, isStdout: bool, buffered: string, streaming: bool, cfg: Config)
    requires FeedsOk(s.feeds, cfg) && FinishingAt(s, k, cfg)
    ensures Gathering(s, MergeOne(s, k, isStdout, buffered, streaming, cfg), k, cfg)
  {
    var retained := if isStdout then s.executions[k].stdout else s.executions[k].stderr;
    match if streaming then BufferedResultDelta(retained, buffered, cfg.outputLimit) else Append(buffered)
    case Append(text) => AppendOutputGathers(s, k, isStdout, Running, text, cfg);
    case Replace(text) => ReplaceOutputGathers(s, k, isStdout, Running, text, cfg);
  }

  lemma WithResultGathers(s: State, k: Key, code: int, message: string, out: string, err: string, streaming: bool,
                          cfg: Config)
    requires InvExcept(s, k, cfg) && FinishingAt(s, k, cfg)
    ensures Gathering(s, WithResult(s, k, code, message, out, err, streaming, cfg), k, cfg)
  {
    var s2 := s.(executions := s.executions[k := s.executions[k].(message := message)]);
    FeedsEvolveRefl(s.feeds, cfg);
    MessageFinishing(s, k, message, cfg);
    MergeOneGathers(s2, k, true, out, streaming, cfg);
    MergeOneFinishing(s2, k, true, out, streaming, cfg);
    var s3 := MergeOne(s2, k, true, out, streaming, cfg);
    GatheringTrans(s, s2, s3, k, cfg);
    MergeOneGathers(s3, k, false, err, streaming, cfg);
    MergeOneFinishing(s3, k, false, err, streaming, cfg);
    var s4 := MergeOne(s3, k, false, err, streaming, cfg);
    GatheringTrans(s, s3, s4, k, cfg);
    AppendOutputGathers(s4, k, false, Running, message + "\n", cfg);
    GatheringTrans(s, s4, AppendOutput(s4, k, false, Running, message + "\n", cfg), k, cfg);
  }

  lemma CollectedGathers(s: State, k: Key, result: RunResult, streaming: bool, now: nat, cfg: Config)
    requires Inv(s, cfg) && k in s.executions && s.executions[k].status.Running?
    ensures Gathering(s, Collected(s, k, result, streaming, now, cfg), k, cfg)
  {
    var s1 := RunReturned(s, k, now);
    RunReturnedFinishing(s, k, now, cfg);
    FeedsEvolveRefl(s.feeds, cfg);
    assert Gathering(s, s1, k, cfg);
    match result
    case RunFailed(error) =>
      var ctx := if k in s.ctxCanceled then CanceledErr else NoErr;
      var status := RunErrorStatus(s.executions[k], ctx).0;
      AppendOutputGathers(s1, k, false, status, error + "\n", cfg);
      GatheringTrans(s, s1, AppendOutput(s1, k, false, status, error + "\n", cfg), k, cfg);
    case RunOk(code, message, out, err) =>
      WithResultGathers(s1, k, code, message, out, err, streaming, cfg);
      GatheringTrans(s, s1, WithResult(s1, k, code, message, out, err, streaming, cfg), k, cfg);
  }

  lemma CollectedGathered(s: State, k: Key, result: RunResult, streaming: bool, now: nat, cfg: Config)
    requires Inv(s, cfg) && k in s.runners && s.runners[k].InBackend?
    ensures k in s.executions
    ensures var s1 := Collected(s, k, result, streaming, now, cfg);
            Gathering(s, s1, k, cfg) && FinishingAt(s1, k, cfg)
  {
    assert KeyInv(s, k, cfg);
    CollectedFinishing(s, k, result, streaming, now, cfg);
    CollectedGathers(s, k, result, streaming, now, cfg);
  }

  lemma FinishRunProgress(s: State, k: Key, result: RunResult, streaming: bool, now: nat, cfg: Config)
    requires Inv(s, cfg) && k in s.runners && s.runners[k].InBackend?
    ensures Progress(s, FinishRun(s, k, result, streaming, now, cfg))
    ensures FinishRun(s, k, result, streaming, now, cfg).consumed == s.consumed
  {
    CollectedGathered(s, k, result, streaming, now, cfg);
    FinishCollected(s, k, result, streaming, now, cfg);
  }

  lemma FinishCollected(s: State, k: Key, result: RunResult, streaming: bool, now: nat, cfg: Config)
    requires k in s.executions
    requires var s1 := Collected(s, k, result, streaming, now, cfg);
             Gathering(s, s1, k, cfg) && FinishingAt(s1, k, cfg)
    ensures Progress(s, FinishRun(s, k, result, streaming, now, cfg))
    ensures FinishRun(s, k, result, streaming, now, cfg).consumed == s.consumed
  {
    var (status, code) := RunOutcome(s, k, result);
    var s1 := Collected(s, k, result, streaming, now, cfg);
    FinishGathered(s, s1, k, status, code, ResultMessage(result), "", now, cfg);
  }

  /** Finalizing after gathering, with the pruning that follows. */
  lemma FinishGathered(s: State, s1: State, k: Key, status: Status, code: int, message: string, exitMessage: string,
                       now: nat, cfg: Config)
    requires Gathering(s, s1, k, cfg) && FinishingAt(s1, k, cfg) && Final(status)
    ensures var s2 := Finalize(s1, k, status, code, message, exitMessage, now, cfg);
            Progress(s, Prune(s2, now, cfg)) && Prune(s2, now, cfg).consumed == s.consumed
  {
    var s2 := Finalize(s1, k, status, code, message, exitMessage, now, cfg);
    forall k' ensures ExecProgress(s, s1, k') {
      assert k' != k ==> Get(s1.executions, k') == Get(s.executions, k');
    }
    FinalizeProgress(s, s1, k, status, code, message, exitMessage, now, cfg);
    FinalizeEvolves(s1, k, status, code, message, exitMessage, now, cfg);
    FeedsEvolveTrans(s.feeds, s1.feeds, s2.feeds, cfg);
    ProgressThenPrune(s, s2, now, cfg);
  }

  // ---- Cancelling ----

  lemma CancelProgress(s: State, k: Key, signal: int, now: nat, cfg: Config)
    requires Inv(s, cfg)
    ensures Progress(s, Cancel(s, k, signal, now, cfg)) && Cancel(s, k, signal, now, cfg).consumed == s.consumed
  {
    if Live(s.executions, k) {
      assert KeyInv(s, k, cfg);
      LiveFeedOpen(s, k, cfg);
      var n := NormalSignal(signal);
      var s1 := CancelNoted(s, k, n, cfg);
      var noted := ExecEvent(s.executions[k].status, Message("cancel requested"));
      OpenRecordEvolves(s.feeds, k, noted, cfg);
      forall k' ensures ExecProgress(s, s1, k') {
      }
      if s.executions[k].status.Queued? {
        EmitOpen(s.feeds[OfExec(k)], noted, BoundsOf(OfExec(k), cfg));
        CancelQueuedProgress(s, s1, k, n, now, cfg);
      } else {
        EvolutionIsProgress(s.feeds, s1.feeds, cfg);
        CancelRunningProgress(s, s1, s.cancels + multiset{k});
      }
    }
  }

  lemma CancelRunningProgress(s: State, s1: State, cancels: multiset<Key>)
    requires Progress(s, s1)
    ensures Progress(s, s1.(cancels := cancels))
  {
    forall k ensures ExecProgress(s, s1.(cancels := cancels), k) {
      assert ExecProgress(s, s1, k);
    }
  }

  lemma CancelQueuedProgress(s: State, s1: State, k: Key, n: int, now: nat, cfg: Config)
    requires k in s.executions && k in s1.executions && s.executions[k].status.Queued? && s1.consumed == s.consumed
    requires s1.executions[k] == s.executions[k].(cancelRequested := true, cancelSignal := n)
    requires (forall k' :: ExecProgress(s, s1, k')) && FeedsEvolve(s.feeds, s1.feeds, cfg) && OfExec(k) in s1.feeds
    requires OpenFeed(s1.feeds[OfExec(k)], BoundsOf(OfExec(k), cfg))
    ensures var s2 := Finalize(s1, k, Canceled, CancelExitCode(n), s.executions[k].message,
                               "execution canceled before start", now, cfg);
            Progress(s, Prune(s2, now, cfg)) && Prune(s2, now, cfg).consumed == s.consumed
  {
    var t, message := OfExec(k), s.executions[k].message;
    var s2 := Finalize(s1, k, Canceled, CancelExitCode(n), message, "execution canceled before start", now, cfg);
    FinalizeProgress(s, s1, k, Canceled, CancelExitCode(n), message, "execution canceled before start", now, cfg);
    var e := ExitEvent(Canceled, CancelExitCode(n), message, "execution canceled before start");
    EmitExit(s1.feeds[t], e, BoundsOf(t, cfg));
    var l' := CloseDone(Record(s1.feeds[t], e, BoundsOf(t, cfg)));
    assert s2.feeds == s1.feeds[t := l'];
    OneFeedEvolves(s1.feeds, t, l', cfg);
    FeedsEvolveTrans(s.feeds, s1.feeds, s2.feeds, cfg);
    ProgressThenPrune(s, s2, now, cfg);
  }

  // ---- The rest ----

  lemma SameFeedsProgress(s: State, s': State)
    requires s'.feeds == s.feeds && s'.executions == s.executions
    ensures Progress(s, s')
  {
    SameExecutionsProgress(s, s');
  }

  lemma DownloadProgress(s: State, id: Id, cfg: Config)
    ensures Progress(s, DownloadBegin(s, id, cfg)) && DownloadBegin(s, id, cfg).consumed == s.consumed
  {
    SameFeedsProgress(s, DownloadBegin(s, id, cfg));
  }

  lemma DownloadEndProgress(s: State, id: Id)
    ensures Progress(s, DownloadEnd(s, id)) && DownloadEnd(s, id).consumed == s.consumed
  {
    SameFeedsProgress(s, DownloadEnd(s, id));
  }

  lemma OneExecutionProgress(s: State, k: Key, e: Execution)
    requires k in s.executions && Moves(s.executions[k], e)
    ensures Progress(s, s.(executions := s.executions[k := e]))
  {
    var s' := s.(executions := s.executions[k := e]);
    assert forall k' :: ExecProgress(s, s', k');
  }

  lemma SetAttachProgress(s: State, k: Key)
    ensures Progress(s, SetAttach(s, k)) && SetAttach(s, k).consumed == s.consumed
  {
    if Live(s.executions, k) {
      OneExecutionProgress(s, k, s.executions[k].(hasAttach := true));
    } else {
      SameFeedsProgress(s, s);
    }
  }

  lemma CallCancelProgress(s: State, k: Key)
    ensures Progress(s, CallCancel(s, k)) && CallCancel(s, k).consumed == s.consumed
  {
    SameFeedsProgress(s, CallCancel(s, k));
  }

  lemma OpenProgress(s: State, id: Id, k: Key, token: string, ttl: nat, now: nat, cfg: Config)
    ensures Progress(s, OpenSession(s, id, k, token, ttl, now, cfg))
    ensures OpenSession(s, id, k, token, ttl, now, cfg).consumed == s.consumed
  {
    OpenSessionShape(s, id, k, token, ttl, now, cfg);
    SameFeedsProgress(s, OpenSession(s, id, k, token, ttl, now, cfg));
  }

  lemma ReleaseProgress(s: State, h: nat)
    ensures Progress(s, ReleaseSession(s, h)) && ReleaseSession(s, h).consumed == s.consumed
  {
    SameFeedsProgress(s, ReleaseSession(s, h));
  }

  lemma ConsumeProgress(s: State, h: nat, id: Id, token: string, now: nat)
    ensures Progress(s, ConsumeSession(s, h, id, token, now))
    ensures ConsumeSession(s, h, id, token, now).consumed
              == s.consumed + (if CanConsume(s, id, token, now) then {id} else {})
  {
    ConsumeSessionShape(s, h, id, token, now);
    SameFeedsProgress(s, ConsumeSession(s, h, id, token, now));
  }

  /** Only one feed is touched, and its trace is not. */
  lemma ChannelProgress(s: State, s': State, t: Topic)
    requires s'.executions == s.executions && t in s.feeds && t in s'.feeds
    requires s'.feeds[t].trace == s.feeds[t].trace && s'.feeds[t].doneClosed == s.feeds[t].doneClosed
    requires s'.feeds == s.feeds[t := s'.feeds[t]]
    ensures Progress(s, s')
  {
    SameExecutionsProgress(s, s');
  }

  lemma StartWatchProgress(s: State, w: nat, t: Topic, mode: Mode)
    ensures Progress(s, StartWatch(s, w, t, mode)) && StartWatch(s, w, t, mode).consumed == s.consumed
  {
    if Stored(s, t) && t in s.feeds {
      ChannelProgress(s, StartWatch(s, w, t, mode), t);
    } else {
      SameFeedsProgress(s, s);
    }
  }

  lemma MoveWatchProgress(s: State, w: nat, m: FollowMove)
    requires CanMove(s, w, m)
    ensures Progress(s, MoveWatch(s, w, m)) && MoveWatch(s, w, m).consumed == s.consumed
  {
    MoveWatchShape(s, w, m);
    ChannelProgress(s, MoveWatch(s, w, m), s.watches[w].topic);
  }

  lemma EndWatchProgress(s: State, w: nat)
    requires w in s.watches
    ensures Progress(s, EndWatch(s, w)) && EndWatch(s, w).consumed == s.consumed
  {
    if Stored(s, s.watches[w].topic) && s.watches[w].topic in s.feeds {
      ChannelProgress(s, EndWatch(s, w), s.watches[w].topic);
    } else {
      SameFeedsProgress(s, s);
    }
  }

  /** Every step moves executions forward and traces on, and only a successful consume consumes a session. */
  lemma {:induction false} StepProgress(s: State, op: Op, cfg: Config)
    requires Inv(s, cfg) && Enabled(s, op, cfg)
    ensures Progress(s, Apply(s, op, cfg))
    ensures Apply(s, op, cfg).consumed ==
            s.consumed + (if op.OpConsume? && CanConsume(s, op.session, op.token, op.now) then {op.session} else {})
  {
    match op
    case OpCreateSandbox(id, backend, now) => CreateSandboxProgress(s, id, backend, now, cfg);
    case OpTerminateBegin(id, now) => TerminateBeginProgress(s, id, now, cfg);
    case OpTerminateEnd(id, ok, now) => TerminateEndProgress(s, id, ok, now, cfg);
    case OpCreateExecution(k, kind, now) => CreateExecutionProgress(s, k, kind, now, cfg);
    case OpBeginRun(k, now) => BeginRunProgress(s, k, now, cfg);
    case OpOutput(k, isStdout, chunk) => OutputChunkProgress(s, k, isStdout, chunk, cfg);
    case OpFinishRun(k, result, streaming, now) => FinishRunProgress(s, k, result, streaming, now, cfg);
    case OpCancel(k, signal, now) => CancelProgress(s, k, signal, now, cfg);
    case OpConsume(h, session, token, now) => ConsumeProgress(s, h, session, token, now);
    case OpDownloadBegin(id) => DownloadProgress(s, id, cfg);
    case OpDownloadEnd(id) => DownloadEndProgress(s, id);
    case OpAttach(k) => SetAttachProgress(s, k);
    case OpCallCancel(k) => CallCancelProgress(s, k);
    case OpOpen(session, k, token, ttl, now) => OpenProgress(s, session, k, token, ttl, now, cfg);
    case OpRelease(h) => ReleaseProgress(s, h);
    case OpWatch(w, t, mode) => StartWatchProgress(s, w, t, mode);
    case OpMove(w, m) => MoveWatchProgress(s, w, m);
    case OpEndWatch(w) => EndWatchProgress(s, w);
  }
}

/** Output conservation: from the guest's writes, through the decoder and any interleaving of service steps, to the
    stdout payloads in an execution's trace. */
module ServiceOutput {
  import opened Seqs
  import opened Text
  import opened EventLog
  import opened Retention
  import opened ServiceModel
  import opened ServiceInvariant
  import opened ServiceSteps
  import opened ServiceRunSteps
  import opened ServiceClientSteps
  import opened ServiceTheorems
  import opened StreamCodec

  ghost predicate SameTrace(feeds: Feeds, feeds': Feeds, t: Topic) {
    t in feeds ==> t in feeds' && feeds'[t].trace == feeds[t].trace
  }

  // ---- Steps that leave a feed's trace alone ----

  lemma PruneKeepsTrace(s: State, now: nat, cfg: Config, t: Topic)
    ensures SameTrace(s.feeds, Prune(s, now, cfg).feeds, t)
    ensures Prune(s, now, cfg).runners == s.runners
  {
  }

  lemma FinalizeOther(s: State, k: Key, status: Status, code: int, message: string, exitMessage: string, now: nat,
                      cfg: Config, t: Topic)
    requires k in s.executions && t != OfExec(k)
    ensures SameTrace(s.feeds, Finalize(s, k, status, code, message, exitMessage, now, cfg).feeds, t)
  {
  }

  lemma AppendOutputOther(s: State, k: Key, isStdout: bool, status: Status, chunk: string, cfg: Config, t: Topic)
    requires k in s.executions && t != OfExec(k)
    ensures SameTrace(s.feeds, AppendOutput(s, k, isStdout, status, chunk, cfg).feeds, t)
  {
  }

  lemma ReplaceOutputOther(s: State, k: Key, isStdout: bool, status: Status, text: string, cfg: Config, t: Topic)
    requires k in s.executions && t != OfExec(k)
    ensures SameTrace(s.feeds, ReplaceOutput(s, k, isStdout, status, text, cfg).feeds, t)
  {
  }

  lemma MergeOneOther(s: State, k: Key, isStdout: bool, buffered: string, streaming: bool, cfg: Config, t: Topic)
    requires k in s.executions && t != OfExec(k)
    ensures SameTrace(s.feeds, MergeOne(s, k, isStdout, buffered, streaming, cfg).feeds, t)
  {
    var retained := if isStdout then s.executions[k].stdout else s.executions[k].stderr;
    match if streaming then BufferedResultDelta(retained, buffered, cfg.outputLimit) else Append(buffered)
    case Append(text) => AppendOutputOther(s, k, isStdout, Running, text, cfg, t);
    case Replace(text) => ReplaceOutputOther(s, k, isStdout, Running, text, cfg, t);
  }

  lemma WithResultOther(s: State, k: Key, code: int, message: string, out: string, err: string, streaming: bool,
                        cfg: Config, t: Topic)
    requires k in s.executions && t != OfExec(k)
    ensures SameTrace(s.feeds, WithResult(s, k, code, message, out, err, streaming, cfg).feeds, t)
  {
    var s2 := s.(executions := s.executions[k := s.executions[k].(message := message)]);
    MergeOneOther(s2, k, true, out, streaming, cfg, t);
    var s3 := MergeOne(s2, k, true, out, streaming, cfg);
    MergeOneOther(s3, k, false, err, streaming, cfg, t);
    var s4 := MergeOne(s3, k, false, err, streaming, cfg);
    AppendOutputOther(s4, k, false, Running, message + "\n", cfg, t);
  }

  lemma CollectedOther(s: State, k: Key, result: RunResult, streaming: bool, now: nat, cfg: Config, t: Topic)
    requires k in s.executions && t != OfExec(k)
    ensures SameTrace(s.feeds, Collected(s, k, result, streaming, now, cfg).feeds, t)
  {
    var s1 := RunReturned(s, k, now);
    match result
    case RunFailed(error) =>
      var ctx := if k in s.ctxCanceled then CanceledErr else NoErr;
      AppendOutputOther(s1, k, false, RunErrorStatus(s.executions[k], ctx).0, error + "\n", cfg, t);
    case RunOk(code, message, out, err) => WithResultOther(s1, k, code, message, out, err, streaming, cfg, t);
  }

  lemma FinishRunOther(s: State, k: Key, result: RunResult, streaming: bool, now: nat, cfg: Config, t: Topic)
    requires k in s.executions && t != OfExec(k)
    ensures SameTrace(s.feeds, FinishRun(s, k, result, streaming, now, cfg).feeds, t)
  {
    var (status, code) := RunOutcome(s, k, result);
    var s1 := Collected(s, k, result, streaming, now, cfg);
    var s2 := Finalize(s1, k, status, code, ResultMessage(result), "", now, cfg);
    CollectedOther(s, k, result, streaming, now, cfg, t);
    FinalizeOther(s1, k, status, code, ResultMessage(result), "", now, cfg, t);
    PruneKeepsTrace(s2, now, cfg, t);
  }

  lemma CancelNotedOther(s: State, k: Key, signal: int, cfg: Config, t: Topic)
    requires t != OfExec(k) && k in s.executions
    ensures SameTrace(s.feeds, CancelNoted(s, k, signal, cfg).feeds, t)
  {
  }

  lemma CancelOther(s: State, k: Key, signal: int, now: nat, cfg: Config, t: Topic)
    requires t != OfExec(k)
    ensures SameTrace(s.feeds, Cancel(s, k, signal, now, cfg).feeds, t)
  {
    if Live(s.executions, k) {
      var n := NormalSignal(signal);
      var s1 := CancelNoted(s, k, n, cfg);
      CancelNotedOther(s, k, n, cfg, t);
      if s.executions[k].status.Queued? {
        FinalizeOther(s1, k, Canceled, CancelExitCode(n), s.executions[k].message, "execution canceled before start",
                      now, cfg, t);
        PruneKeepsTrace(Finalize(s1, k, Canceled, CancelExitCode(n), s.executions[k].message,
                                 "execution canceled before start", now, cfg),
                        now, cfg, t);
      }
    }
  }

  // ---- Steps around an execution that is running ----

  ghost predicate SameOutput(s: State, s': State, k: Key) {
    && OfExec(k) in s.feeds && OfExec(k) in s'.feeds
    && forall isStdout :: TextOf(s'.feeds[OfExec(k)].trace, isStdout) == TextOf(s.feeds[OfExec(k)].trace, isStdout)
  }

  lemma TerminateBeginText(s: State, id: Id, now: nat, cfg: Config, k: Key)
    requires OfExec(k) in s.feeds && k in s.executions && s.executions[k].status.Running?
    ensures SameOutput(s, TerminateBegin(s, id, now, cfg), k)
  {
    if id in s.sandboxes && !s.sandboxes[id].status.Stopped? {
      var s1 := MarkStopping(s, id, now, cfg);
      assert Get(s1.feeds, OfExec(k)) == Get(s.feeds, OfExec(k));
      MessageKeepsText(s.feeds[OfExec(k)].trace, ExecEvent(Running, Message(TERM_TEXT)));
      TerminateText(s1, id, now, cfg, k);
    }
  }

  lemma TerminateText(s: State, id: Id, now: nat, cfg: Config, k: Key)
    requires OfExec(k) in s.feeds && k in s.executions && s.executions[k].status.Running?
    ensures SameOutput(s, TerminateExecutions(s, id, now, cfg), k)
  {
    MessageKeepsText(s.feeds[OfExec(k)].trace, ExecEvent(Running, Message(TERM_TEXT)));
  }

  lemma CancelText(s: State, k: Key, signal: int, now: nat, cfg: Config)
    requires OfExec(k) in s.feeds && k in s.executions && s.executions[k].status.Running?
    ensures SameOutput(s, Cancel(s, k, signal, now, cfg), k)
  {
    MessageKeepsText(s.feeds[OfExec(k)].trace, ExecEvent(Running, Message("cancel requested")));
  }

  lemma OutputText(s: State, k: Key, isStdout: bool, chunk: string, cfg: Config, stream: bool)
    requires OfExec(k) in s.feeds && Live(s.executions, k)
    ensures var s' := OutputChunk(s, k, isStdout, chunk, cfg);
            && OfExec(k) in s'.feeds
            && TextOf(s'.feeds[OfExec(k)].trace, stream)
                == TextOf(s.feeds[OfExec(k)].trace, stream) + (if stream == isStdout then chunk else "")
  {
    if chunk != "" {
      TextOfSnoc(s.feeds[OfExec(k)].trace, ExecEvent(s.executions[k].status, OutputPayload(isStdout, chunk)), stream);
    }
  }

  /** What an operation reports as output of execution `k`. */
  function Reported(op: Op, k: Key, isStdout: bool): string {
    if op.OpOutput? && op.key == k && op.isStdout == isStdout then op.chunk else ""
  }

  lemma RunnerLeaves(s: State, k: Key, result: RunResult, streaming: bool, now: nat, cfg: Config)
    requires k in s.executions
    ensures !InFlight(FinishRun(s, k, result, streaming, now, cfg), k)
  {
    var (status, code) := RunOutcome(s, k, result);
    var s1 := Collected(s, k, result, streaming, now, cfg);
    CollectedRunner(s, k, result, streaming, now, cfg);
    PruneKeepsTrace(Finalize(s1, k, status, code, ResultMessage(result), "", now, cfg), now, cfg, OfExec(k));
  }

  lemma CollectedRunner(s: State, k: Key, result: RunResult, streaming: bool, now: nat, cfg: Config)
    requires k in s.executions
    ensures Collected(s, k, result, streaming, now, cfg).runners == s.runners[k := RunnerDone]
  {
  }

  ghost predicate TextGrowsBy(s: State, s': State, k: Key, isStdout: bool, more: string) {
    && OfExec(k) in s.feeds && OfExec(k) in s'.feeds
    && TextOf(s'.feeds[OfExec(k)].trace, isStdout) == TextOf(s.feeds[OfExec(k)].trace, isStdout) + more
  }

  lemma CancelStepText(s: State, k': Key, signal: int, now: nat, cfg: Config, k: Key, isStdout: bool)
    requires OfExec(k) in s.feeds && k in s.executions && s.executions[k].status.Running?
    ensures TextGrowsBy(s, Cancel(s, k', signal, now, cfg), k, isStdout, "")
  {
    if k' == k {
      CancelText(s, k, signal, now, cfg);
    } else {
      CancelOther(s, k', signal, now, cfg, OfExec(k));
    }
  }

  lemma OutputStepText(s: State, k': Key, stream: bool, chunk: string, cfg: Config, k: Key, isStdout: bool)
    requires OfExec(k) in s.feeds && k in s.executions && s.executions[k].status.Running?
    ensures var more := if k' == k && stream == isStdout then chunk else "";
            TextGrowsBy(s, OutputChunk(s, k', stream, chunk, cfg), k, isStdout, more)
  {
    if k' == k {
      OutputText(s, k, stream, chunk, cfg, isStdout);
    } else if Live(s.executions, k') {
      AppendOutputOther(s, k', stream, s.executions[k'].status, chunk, cfg, OfExec(k));
    }
  }

  lemma FinishStepText(s: State, k': Key, result: RunResult, streaming: bool, now: nat, cfg: Config, k: Key,
                       isStdout: bool)
    requires k' in s.executions && OfExec(k) in s.feeds && InFlight(FinishRun(s, k', result, streaming, now, cfg), k)
    ensures TextGrowsBy(s, FinishRun(s, k', result, streaming, now, cfg), k, isStdout, "")
  {
    RunnerLeaves(s, k', result, streaming, now, cfg);
    FinishRunOther(s, k', result, streaming, now, cfg, OfExec(k));
  }

  lemma StopStepText(s: State, op: Op, cfg: Config, k: Key, isStdout: bool)
    requires Enabled(s, op, cfg) && (op.OpTerminateBegin? || op.OpCancel?)
    requires OfExec(k) in s.feeds && k in s.executions && s.executions[k].status.Running?
    ensures TextGrowsBy(s, Apply(s, op, cfg), k, isStdout, "")
  {
    match op
    case OpTerminateBegin(id, now) => TerminateBeginText(s, id, now, cfg, k);
    case OpCancel(k', signal, now) => CancelStepText(s, k', signal, now, cfg, k, isStdout);
  }

  lemma RunStepText(s: State, op: Op, cfg: Config, k: Key, isStdout: bool)
    requires Inv(s, cfg) && Enabled(s, op, cfg) && (op.OpOutput? || op.OpFinishRun?) && InFlight(Apply(s, op, cfg), k)
    requires OfExec(k) in s.feeds && k in s.executions && s.executions[k].status.Running?
    ensures TextGrowsBy(s, Apply(s, op, cfg), k, isStdout, Reported(op, k, isStdout))
  {
    match op
    case OpOutput(k', stream, chunk) => OutputStepText(s, k', stream, chunk, cfg, k, isStdout);
    case OpFinishRun(k', result, streaming, now) =>
      assert KeyInv(s, k', cfg);
      FinishStepText(s, k', result, streaming, now, cfg, k, isStdout);
  }

  /** While the backend runs an execution, only its own output callbacks add to the text of its trace. */
  lemma {:induction false} StepText(s: State, op: Op, cfg: Config, k: Key, isStdout: bool)
    requires Inv(s, cfg) && Enabled(s, op, cfg) && InFlight(s, k) && InFlight(Apply(s, op, cfg), k)
    ensures TextGrowsBy(s, Apply(s, op, cfg), k, isStdout, Reported(op, k, isStdout))
  {
    assert KeyInv(s, k, cfg);
    if op.OpTerminateBegin? || op.OpCancel? {
      StopStepText(s, op, cfg, k, isStdout);
    } else if op.OpOutput? || op.OpFinishRun? {
      RunStepText(s, op, cfg, k, isStdout);
    } else {
      QuietStep(s, op, cfg, k);
    }
  }

  lemma QuietSandboxStep(s: State, op: Op, cfg: Config, t: Topic)
    requires Enabled(s, op, cfg) && t.OfExec? && (op.OpCreateSandbox? || op.OpTerminateEnd?)
    ensures SameTrace(s.feeds, Apply(s, op, cfg).feeds, t)
  {
    match op
    case OpCreateSandbox(id, backend, now) =>
      var s1 := s.(sandboxes := s.sandboxes[id := Sandbox(backend, Ready, None, false, now, now)],
                   feeds := s.feeds[OfSandbox(id) := Record(EmptyLog(),
                                                            SandboxEvent(Ready, "sandbox created and ready"),
                                                                BoundsOf(OfSandbox(id), cfg))]);
      PruneKeepsTrace(s1, now, cfg, t);
    case OpTerminateEnd(id, ok, now) => TerminateEndQuiet(s, id, ok, now, cfg, t);
  }

  lemma TerminateEndQuiet(s: State, id: Id, ok: bool, now: nat, cfg: Config, t: Topic)
    requires t.OfExec?
    ensures SameTrace(s.feeds, TerminateEnd(s, id, ok, now, cfg).feeds, t)
  {
    var s1 := s.(terminating := s.terminating - multiset{id});
    if ok && id in s.sandboxes && !s.sandboxes[id].status.Stopped? {
      var stopped := SetSandbox(s1, id, Stopped, "sandbox terminated", now, cfg);
      PruneKeepsTrace(stopped.(feeds := Seal(stopped.feeds, OfSandbox(id))), now, cfg, t);
    } else {
      PruneKeepsTrace(s1, now, cfg, t);
    }
  }

  lemma CreateQuiet(s: State, k: Key, kind: Kind, now: nat, cfg: Config, t: Topic)
    requires OfExec(k) !in s.feeds
    ensures SameTrace(s.feeds, CreateExecution(s, k, kind, now, cfg).feeds, t)
  {
    if CreateVerdict(s, k.sandbox, cfg).Accepted? {
      PruneKeepsTrace(Enqueued(s, k, kind, now, cfg), now, cfg, t);
    }
  }

  lemma BeginRunQuiet(s: State, k: Key, now: nat, cfg: Config, t: Topic)
    requires Inv(s, cfg) && k in s.runners && s.runners[k].Spawned? && t != OfExec(k)
    ensures SameTrace(s.feeds, BeginRun(s, k, now, cfg).feeds, t)
  {
    if Live(s.executions, k) {
      RunnerFindsSandboxReady(s, k, cfg);
    }
  }

  lemma WatchQuiet(s: State, op: Op, cfg: Config, t: Topic)
    requires Enabled(s, op, cfg) && (op.OpMove? || op.OpEndWatch?)
    ensures SameTrace(s.feeds, Apply(s, op, cfg).feeds, t)
  {
    match op
    case OpMove(w, m) => MoveQuiet(s, w, m, t);
    case OpEndWatch(w) => EndQuiet(s, w, t);
  }

  lemma MoveQuiet(s: State, w: nat, m: FollowMove, t: Topic)
    requires CanMove(s, w, m)
    ensures SameTrace(s.feeds, MoveWatch(s, w, m).feeds, t)
  {
    MoveWatchShape(s, w, m);
  }

  lemma EndQuiet(s: State, w: nat, t: Topic)
    requires w in s.watches
    ensures SameTrace(s.feeds, EndWatch(s, w).feeds, t)
  {
  }

  /** Operations that are neither output, cancel, terminate nor the end of a run leave a running trace alone. */
  lemma QuietStep(s: State, op: Op, cfg: Config, k: Key)
    requires Inv(s, cfg) && Enabled(s, op, cfg) && InFlight(s, k) && OfExec(k) in s.feeds
    requires !op.OpTerminateBegin? && !op.OpCancel? && !op.OpOutput? && !op.OpFinishRun?
    ensures SameTrace(s.feeds, Apply(s, op, cfg).feeds, OfExec(k))
  {
    var t := OfExec(k);
    match op
    case OpCreateSandbox(id, backend, now) => QuietSandboxStep(s, op, cfg, t);
    case OpTerminateEnd(id, ok, now) => QuietSandboxStep(s, op, cfg, t);
    case OpCreateExecution(k', kind, now) => CreateQuiet(s, k', kind, now, cfg, t);
    case OpBeginRun(k', now) => BeginRunQuiet(s, k', now, cfg, t);
    case OpMove(w, m) => WatchQuiet(s, op, cfg, t);
    case OpEndWatch(w) => WatchQuiet(s, op, cfg, t);
    case _ => SessionQuiet(s, op, cfg, t);
  }

  lemma SessionQuiet(s: State, op: Op, cfg: Config, t: Topic)
    requires Enabled(s, op, cfg)
    requires op.OpDownloadBegin? || op.OpDownloadEnd? || op.OpAttach? || op.OpCallCancel? || op.OpOpen?
               || op.OpConsume? || op.OpRelease? || op.OpWatch?
    ensures SameTrace(s.feeds, Apply(s, op, cfg).feeds, t)
  {
    match op
    case OpOpen(session, k', token, ttl, now) => OpenSessionShape(s, session, k', token, ttl, now, cfg);
    case OpConsume(h, session, token, now) => ConsumeSessionShape(s, h, session, token, now);
    case _ =>
  }

  // ---- Over whole runs ----

  /** The output callbacks for `k` in a stretch of a run, in order. */
  function ReportedCalls(ops: seq<Op>, k: Key): seq<Call> {
    if ops == [] then []
    else
      var last := ops[|ops| - 1];
      ReportedCalls(ops[..|ops| - 1], k)
      + (if last.OpOutput? && last.key == k then [Call(last.isStdout, last.chunk)] else [])
  }

  lemma ReportedCallsSnoc(ops: seq<Op>, op: Op, k: Key, isStdout: bool)
    ensures TextOfCalls(ReportedCalls(ops + [op], k), isStdout)
            == TextOfCalls(ReportedCalls(ops, k), isStdout) + Reported(op, k, isStdout)
  {
    assert (ops + [op])[..|ops|] == ops;
    if op.OpOutput? && op.key == k {
      TextOfCallsSnoc(ReportedCalls(ops, k), Call(op.isStdout, op.chunk), isStdout);
    } else {
      assert ReportedCalls(ops + [op], k) == ReportedCalls(ops, k);
    }
  }

  ghost predicate StaysInFlight(states: seq<State>, m: nat, n: nat, k: Key)
    requires m <= n < |states|
  {
    forall i :: m <= i <= n ==> InFlight(states[i], k)
  }

  lemma TextAtStep(states: seq<State>, ops: seq<Op>, cfg: Config, n: nat, k: Key, isStdout: bool)
    requires IsRun(states, ops, cfg) && n < |ops| && InFlight(states[n], k) && InFlight(states[n + 1], k)
    ensures TextGrowsBy(states[n], states[n + 1], k, isStdout, Reported(ops[n], k, isStdout))
  {
    RunInv(states, ops, cfg, n);
    assert StepAt(states, ops, cfg, n);
    StepText(states[n], ops[n], cfg, k, isStdout);
  }

  lemma TextGrowsTrans(a: State, b: State, c: State, k: Key, isStdout: bool, x: string, y: string)
    requires TextGrowsBy(a, b, k, isStdout, x) && TextGrowsBy(b, c, k, isStdout, y)
    ensures TextGrowsBy(a, c, k, isStdout, x + y)
  {
  }

  lemma NoGain(states: seq<State>, ops: seq<Op>, cfg: Config, n: nat, k: Key, isStdout: bool)
    requires IsRun(states, ops, cfg) && n < |states| && InFlight(states[n], k)
    ensures TextGrowsBy(states[n], states[n], k, isStdout, "")
  {
    RunInv(states, ops, cfg, n);
    assert KeyInv(states[n], k, cfg);
  }

  /** Whatever else happens while the backend runs an execution, its trace gains exactly the reported text. */
  lemma {:induction false} TraceGainsReportedText(states: seq<State>, ops: seq<Op>, cfg: Config, m: nat, n: nat,
                                                  k: Key, isStdout: bool)
    requires IsRun(states, ops, cfg) && m <= n < |states| && StaysInFlight(states, m, n, k)
    ensures TextGrowsBy(states[m], states[n], k, isStdout, TextOfCalls(ReportedCalls(ops[m..n], k), isStdout))
  {
    if m == n {
      NoGain(states, ops, cfg, n, k, isStdout);
    } else {
      TraceGainsReportedText(states, ops, cfg, m, n - 1, k, isStdout);
      GainsAtStep(states, ops, cfg, m, n - 1, k, isStdout);
    }
  }

  lemma GainsAtStep(states: seq<State>, ops: seq<Op>, cfg: Config, m: nat, n: nat, k: Key, isStdout: bool)
    requires IsRun(states, ops, cfg) && m <= n < |ops| && InFlight(states[n], k) && InFlight(states[n + 1], k)
    requires TextGrowsBy(states[m], states[n], k, isStdout, TextOfCalls(ReportedCalls(ops[m..n], k), isStdout))
    ensures TextGrowsBy(states[m], states[n + 1], k, isStdout, TextOfCalls(ReportedCalls(ops[m..n + 1], k), isStdout))
  {
    TextAtStep(states, ops, cfg, n, k, isStdout);
    assert ops[m..n + 1] == ops[m..n] + [ops[n]];
    GainsOneMore(states[m], states[n], states[n + 1], ops[m..n], ops[n], k, isStdout);
  }

  lemma GainsOneMore(a: State, b: State, c: State, ops: seq<Op>, op: Op, k: Key, isStdout: bool)
    requires TextGrowsBy(a, b, k, isStdout, TextOfCalls(ReportedCalls(ops, k), isStdout))
    requires TextGrowsBy(b, c, k, isStdout, Reported(op, k, isStdout))
    ensures TextGrowsBy(a, c, k, isStdout, TextOfCalls(ReportedCalls(ops + [op], k), isStdout))
  {
    ReportedCallsSnoc(ops, op, k, isStdout);
    TextGrowsTrans(a, b, c, k, isStdout, TextOfCalls(ReportedCalls(ops, k), isStdout), Reported(op, k, isStdout));
  }

  // ---- The end of the run ----

  /** What a retention limit that keeps nothing makes the service replay: the whole buffered text. */
  function Replayed(text: string, limit: int): string {
    if limit > 0 then "" else text
  }

  /** The failure message the service adds when the retained stderr does not contain it. */
  function Complaint(code: int, message: string, err: string, limit: int): string {
    if code != 0 && !Blank(message) && !Contains(TakeLast(err, limit), message) then message + "\n" else ""
  }

  function RetainedOf(e: Execution, isStdout: bool): string {
    if isStdout then e.stdout else e.stderr
  }

  /** Merging what was streamed changes nothing, except that with no retention it is emitted once more. */
  lemma MergeOneText(s: State, k: Key, isStdout: bool, buffered: string, cfg: Config)
    requires k in s.executions && OfExec(k) in s.feeds
    requires RetainedOf(s.executions[k], isStdout) == TakeLast(buffered, cfg.outputLimit)
    ensures var s' := MergeOne(s, k, isStdout, buffered, true, cfg);
            && s'.executions == s.executions && OfExec(k) in s'.feeds
            && TextOf(s'.feeds[OfExec(k)].trace, isStdout)
               == TextOf(s.feeds[OfExec(k)].trace, isStdout) + Replayed(buffered, cfg.outputLimit)
            && TextOf(s'.feeds[OfExec(k)].trace, !isStdout) == TextOf(s.feeds[OfExec(k)].trace, !isStdout)
  {
    MergeOfStreamedTextIsNoop(buffered, cfg.outputLimit);
    if cfg.outputLimit <= 0 && buffered != "" {
      OutputTrace(s.feeds[OfExec(k)].trace, Running, isStdout, buffered);
      assert WithOutput(s.executions[k], isStdout, buffered, cfg.outputLimit) == s.executions[k];
    }
  }

  ghost predicate HasText(s: State, k: Key, out: string, err: string) {
    && OfExec(k) in s.feeds
    && TextOf(s.feeds[OfExec(k)].trace, true) == out && TextOf(s.feeds[OfExec(k)].trace, false) == err
  }

  /** The trace carries exactly the streamed stdout and stderr, then what is replayed and the failure message. */
  ghost predicate CarriesResult(s: State, k: Key, code: int, message: string, out: string, err: string, limit: int) {
    HasText(s, k, out + Replayed(out, limit), err + Replayed(err, limit) + Complaint(code, message, err, limit))
  }

  ghost predicate FinishedWith(s: State, k: Key, code: int, message: string, out: string, err: string, limit: int) {
    OfExec(k) in s.feeds && s.feeds[OfExec(k)].doneClosed && CarriesResult(s, k, code, message, out, err, limit)
  }

  /** When the backend's buffered result is what it streamed, the end of the run adds to the trace exactly the failure
      message, for a non-zero exit code and a message that retained stderr lacks; with no retention at all it also
      repeats the text. */
  lemma FinishAddsOnlyTheComplaint(s: State, k: Key, code: int, message: string, out: string, err: string, now: nat,
                                   cfg: Config)
    requires Inv(s, cfg) && InFlight(s, k) && HasText(s, k, out, err)
    ensures FinishedWith(FinishRun(s, k, RunOk(code, message, out, err), true, now, cfg), k, code, message, out, err,
                         cfg.outputLimit)
  {
    assert KeyInv(s, k, cfg);
    var result := RunOk(code, message, out, err);
    CollectedText(s, k, code, message, out, err, now, cfg);
    var s5 := Collected(s, k, result, true, now, cfg);
    var (status, final) := RunOutcome(s, k, result);
    ExitText(s5, k, status, final, message, now, cfg);
    FinishDone(Finalize(s5, k, status, final, message, "", now, cfg), now, cfg, OfExec(k));
  }

  lemma CollectedText(s: State, k: Key, code: int, message: string, out: string, err: string, now: nat, cfg: Config)
    requires k in s.executions && HasText(s, k, out, err)
    requires s.executions[k].stdout == TakeLast(out, cfg.outputLimit)
    requires s.executions[k].stderr == TakeLast(err, cfg.outputLimit)
    ensures CarriesResult(Collected(s, k, RunOk(code, message, out, err), true, now, cfg), k, code, message, out, err,
                          cfg.outputLimit)
  {
    WithResultText(RunReturned(s, k, now), k, code, message, out, err, cfg);
  }

  lemma WithResultText(s: State, k: Key, code: int, message: string, out: string, err: string, cfg: Config)
    requires k in s.executions && HasText(s, k, out, err)
    requires s.executions[k].stdout == TakeLast(out, cfg.outputLimit)
    requires s.executions[k].stderr == TakeLast(err, cfg.outputLimit)
    ensures CarriesResult(WithResult(s, k, code, message, out, err, true, cfg), k, code, message, out, err,
                          cfg.outputLimit)
  {
    var s2 := s.(executions := s.executions[k := s.executions[k].(message := message)]);
    MergeOneText(s2, k, true, out, cfg);
    var s3 := MergeOne(s2, k, true, out, true, cfg);
    MergeOneText(s3, k, false, err, cfg);
    var s4 := MergeOne(s3, k, false, err, true, cfg);
    ComplaintText(s4, k, code, message, cfg);
  }

  /** The failure message, if one is due, comes last on stderr. */
  lemma ComplaintText(s: State, k: Key, code: int, message: string, cfg: Config)
    requires k in s.executions && OfExec(k) in s.feeds
    ensures var s' := WithComplaint(s, k, code, message, cfg);
            && OfExec(k) in s'.feeds
            && TextOf(s'.feeds[OfExec(k)].trace, true) == TextOf(s.feeds[OfExec(k)].trace, true)
            && TextOf(s'.feeds[OfExec(k)].trace, false) == TextOf(s.feeds[OfExec(k)].trace, false)
               + if code != 0 && !Blank(message) && !Contains(s.executions[k].stderr, message) then message + "\n"
                 else ""
  {
    OutputTrace(s.feeds[OfExec(k)].trace, Running, false, message + "\n");
  }

  lemma ExitText(s: State, k: Key, status: Status, code: int, message: string, now: nat, cfg: Config)
    requires k in s.executions && OfExec(k) in s.feeds
    ensures var s' := Finalize(s, k, status, code, message, "", now, cfg);
            && SameOutput(s, s', k) && s'.feeds[OfExec(k)].doneClosed
  {
    MessageKeepsText(s.feeds[OfExec(k)].trace, ExitEvent(status, code, message, ""));
  }

  lemma FinishDone(s: State, now: nat, cfg: Config, t: Topic)
    requires t in s.feeds && s.feeds[t].doneClosed
    ensures t in Prune(s, now, cfg).feeds && Prune(s, now, cfg).feeds[t].doneClosed
    ensures Prune(s, now, cfg).feeds[t].trace == s.feeds[t].trace
  {
  }

  /** Appending output to a live execution's record and trace. */
  lemma AppendedText(s: State, k: Key, isStdout: bool, status: Status, chunk: string, cfg: Config)
    requires k in s.executions && OfExec(k) in s.feeds
    ensures var s' := AppendOutput(s, k, isStdout, status, chunk, cfg);
            && OfExec(k) in s'.feeds
            && TextOf(s'.feeds[OfExec(k)].trace, isStdout) == TextOf(s.feeds[OfExec(k)].trace, isStdout) + chunk
            && TextOf(s'.feeds[OfExec(k)].trace, !isStdout) == TextOf(s.feeds[OfExec(k)].trace, !isStdout)
            && RetainedOf(s'.executions[k], !isStdout) == RetainedOf(s.executions[k], !isStdout)
            && RetainedOf(s'.executions[k], isStdout)
               == if chunk == "" then RetainedOf(s.executions[k], isStdout)
                  else AppendRetainedOutput(RetainedOf(s.executions[k], isStdout), chunk, cfg.outputLimit)
  {
    if chunk != "" {
      OutputTrace(s.feeds[OfExec(k)].trace, status, isStdout, chunk);
    }
  }

  lemma FinalText(s5: State, k: Key, status: Status, code: int, message: string, now: nat, cfg: Config, out: string,
                  err: string)
    requires k in s5.executions && HasText(s5, k, out, err)
    ensures var s' := Prune(Finalize(s5, k, status, code, message, "", now, cfg), now, cfg);
            HasText(s', k, out, err) && s'.feeds[OfExec(k)].doneClosed
  {
    ExitText(s5, k, status, code, message, now, cfg);
    FinishDone(Finalize(s5, k, status, code, message, "", now, cfg), now, cfg, OfExec(k));
  }

  /** A run that fails adds its error to stderr, as a line, unless it is blank. */
  lemma FailedRunSaysWhy(s: State, k: Key, error: string, streaming: bool, now: nat, cfg: Config, out: string,
                         err: string)
    requires k in s.executions && HasText(s, k, out, err)
    ensures var s' := FinishRun(s, k, RunFailed(error), streaming, now, cfg);
            && HasText(s', k, out, err + if TrimSpace(error) == "" then "" else error + "\n")
            && s'.feeds[OfExec(k)].doneClosed
  {
    var result := RunFailed(error);
    var (status, code) := RunOutcome(s, k, result);
    AppendedText(RunReturned(s, k, now), k, false, status, error + "\n", cfg);
    FinalText(Collected(s, k, result, streaming, now, cfg), k, status, code, error, now, cfg, out,
              err + if TrimSpace(error) == "" then "" else error + "\n");
  }

  /** A backend that does not stream has all its buffered output emitted at the end, and the failure message after
      it. */
  lemma BufferedRunEmitsAll(s: State, k: Key, code: int, message: string, out: string, err: string, now: nat,
                            cfg: Config, out0: string, err0: string)
    requires k in s.executions && HasText(s, k, out0, err0)
    requires s.executions[k].stderr == TakeLast(err0, cfg.outputLimit)
    ensures var s' := FinishRun(s, k, RunOk(code, message, out, err), false, now, cfg);
            && HasText(s', k, out0 + out, err0 + err + Complaint(code, message, err0 + err, cfg.outputLimit))
            && s'.feeds[OfExec(k)].doneClosed
  {
    var result := RunOk(code, message, out, err);
    BufferedText(RunReturned(s, k, now), k, code, message, out, err, cfg, out0, err0);
    var (status, final) := RunOutcome(s, k, result);
    FinalText(Collected(s, k, result, false, now, cfg), k, status, final, message, now, cfg, out0 + out,
              err0 + err + Complaint(code, message, err0 + err, cfg.outputLimit));
  }

  lemma BufferedText(s: State, k: Key, code: int, message: string, out: string, err: string, cfg: Config, out0: string,
                     err0: string)
    requires k in s.executions && HasText(s, k, out0, err0)
    requires s.executions[k].stderr == TakeLast(err0, cfg.outputLimit)
    ensures HasText(WithResult(s, k, code, message, out, err, false, cfg), k, out0 + out,
                    err0 + err + Complaint(code, message, err0 + err, cfg.outputLimit))
  {
    var s2 := s.(executions := s.executions[k := s.executions[k].(message := message)]);
    AppendedText(s2, k, true, Running, out, cfg);
    var s3 := MergeOne(s2, k, true, out, false, cfg);
    AppendedText(s3, k, false, Running, err, cfg);
    var s4 := MergeOne(s3, k, false, err, false, cfg);
    AppendIsTakeLast(TakeLast(err0, cfg.outputLimit), err, cfg.outputLimit);
    TakeLastAppend(err0, err, cfg.outputLimit);
    assert err0 + "" == err0;
    ComplaintText(s4, k, code, message, cfg);
  }

  /** What the end of a run adds to the trace, in every run, when nothing was streamed or nothing came back: the
      error as a line on stderr, or the buffered output and the failure message. */
  lemma EndOfRunText(states: seq<State>, ops: seq<Op>, cfg: Config, i: nat)
    requires IsRun(states, ops, cfg) && i < |ops| && ops[i].OpFinishRun?
    ensures var s, k, result := states[i], ops[i].key, ops[i].result;
            && OfExec(k) in s.feeds
            && var out, err := TextOf(s.feeds[OfExec(k)].trace, true), TextOf(s.feeds[OfExec(k)].trace, false);
            && (result.RunFailed? ==>
                  HasText(states[i + 1], k, out,
                          err + if TrimSpace(result.error) == "" then "" else result.error + "\n"))
            && (result.RunOk? && !ops[i].streaming ==>
                  HasText(states[i + 1], k, out + result.stdout,
                          err + result.stderr
                          + Complaint(result.exitCode, result.message, err + result.stderr, cfg.outputLimit)))
  {
    var s, k, result := states[i], ops[i].key, ops[i].result;
    RunInv(states, ops, cfg, i);
    assert StepAt(states, ops, cfg, i);
    assert KeyInv(s, k, cfg);
    var out, err := TextOf(s.feeds[OfExec(k)].trace, true), TextOf(s.feeds[OfExec(k)].trace, false);
    match result
    case RunFailed(error) => FailedRunSaysWhy(s, k, error, ops[i].streaming, ops[i].now, cfg, out, err);
    case RunOk(code, message, stdout, stderr) =>
      BufferedRunEmitsAll(s, k, code, message, stdout, stderr, ops[i].now, cfg, out, err);
  }

  /** A run that has just entered the backend has produced no output yet. */
  lemma NothingBeforeStart(states: seq<State>, ops: seq<Op>, cfg: Config, m: nat, k: Key)
    requires IsRun(states, ops, cfg) && 0 < m < |states| && InFlight(states[m], k)
    requires ops[m - 1].OpBeginRun? && ops[m - 1].key == k
    ensures HasText(states[m], k, "", "")
  {
    var s := states[m - 1];
    RunInv(states, ops, cfg, m - 1);
    assert StepAt(states, ops, cfg, m - 1) && KeyInv(s, k, cfg);
    if Live(s.executions, k) {
      RunnerFindsSandboxReady(s, k, cfg);
      MessageKeepsText(s.feeds[OfExec(k)].trace, ExecEvent(Running, Message("execution started")));
    }
  }

  /** The message the backend composes from the guest's error detail. */
  function RunMessage(error: string): string {
    (if error == "" then "guest command execution complete"
     else "guest command execution completed with guest-side error detail: " + error)
    + "; rootfs writes discarded after run"
  }

  /** The backend's run result for a decoded response. */
  function BackendResult(r: Response): RunResult {
    RunOk(r.exitCode, RunMessage(r.error), r.stdout, r.stderr)
  }

  /** End to end: the guest writes `out` and `err` in any interleaving and sends an exit frame; the backend decodes the
      frames, reports each chunk and returns the buffered text; the service's steps interleave in any way with
      everything else it does. Then the output payloads of the execution's finished trace are exactly the guest's
      stdout and stderr, followed on stderr by the backend's message when the exit code is not zero and retained stderr
      lacks it; with no retention the text comes twice. */
  lemma {:induction false} GuestOutputReachesTheTrace(
      out: seq<string>, err: seq<string>, frames: seq<Frame>, code: Option<int>, error: Option<string>,
      states: seq<State>, ops: seq<Op>, m: nat, n: nat, k: Key, now: nat, cfg: Config)
    requires Interleaves(Sent(out, true), Sent(err, false), frames)
    requires IsRun(states, ops, cfg) && m <= n < |states| && StaysInFlight(states, m, n, k)
    requires m > 0 && ops[m - 1].OpBeginRun? && ops[m - 1].key == k
    requires ReportedCalls(ops[m..n], k) == Heard(frames + [ExitFrame(code, error)])
    ensures var response := Meaning(frames + [ExitFrame(code, error)]);
            && response.Ok?
            && FinishedWith(FinishRun(states[n], k, BackendResult(response.value), true, now, cfg), k,
                            if code.Some? then code.value else 0, RunMessage(if error.Some? then error.value else ""),
                            Flatten(out), Flatten(err), cfg.outputLimit)
  {
    GuestOutputSurvivesInterleaving(out, err, frames, code, error);
    var response := Meaning(frames + [ExitFrame(code, error)]).value;
    NothingBeforeStart(states, ops, cfg, m, k);
    TraceGainsReportedText(states, ops, cfg, m, n, k, true);
    TraceGainsReportedText(states, ops, cfg, m, n, k, false);
    RunInv(states, ops, cfg, n);
    FinishAddsOnlyTheComplaint(states[n], k, response.exitCode, RunMessage(response.error), response.stdout,
                               response.stderr, now, cfg);
  }
}

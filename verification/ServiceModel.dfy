/** The control service's state and its atomic steps: each critical section under the service mutex is one
    function from state to state; goroutines and calls in flight are part of the state. */
module ServiceModel {
  import opened Seqs
  import opened Text
  import opened EventLog
  import opened Followers
  import opened Retention
  import opened Pruning

  type Id = string

  datatype Key = Key(sandbox: Id, exec: Id)

  /** The string under which the service files an execution. */
  function ExecutionKey(k: Key): string {
    k.sandbox + "/" + k.exec
  }

  predicate SlashFree(id: Id) {
    forall i :: 0 <= i < |id| ==> id[i] != '/'
  }

  datatype Kind = Batch | Interactive
  datatype Status = Queued | Running | Succeeded | Failed | Canceled | TimedOut
  datatype SandboxStatus = Ready | Stopping | Stopped

  predicate Final(s: Status) {
    s.Succeeded? || s.Failed? || s.Canceled? || s.TimedOut?
  }

  datatype Payload = Message(text: string) | Stdout(data: string) | Stderr(data: string)
                   | Exit(code: int, status: Status, text: string)
  datatype Event = ExecEvent(status: Status, payload: Payload)
                 | SandboxEvent(sandboxStatus: SandboxStatus, text: string)
  datatype Topic = OfExec(key: Key) | OfSandbox(id: Id)

  predicate IsExit(e: Event) {
    e.ExecEvent? && e.payload.Exit?
  }

  datatype Sandbox = Sandbox(
    backend: string,
    status: SandboxStatus,
    active: Option<Id>,
    download: bool,
    createdAt: nat,
    updatedAt: nat)

  datatype Execution = Execution(
    kind: Kind,
    status: Status,
    exitCode: int,
    startedAt: Option<nat>,
    finishedAt: Option<nat>,
    message: string,
    stdout: string,
    stderr: string,
    cancelRequested: bool,
    cancelSignal: int,
    hasCancel: bool,
    hasAttach: bool)

  datatype Session = Session(key: Key, token: string, expiresAt: nat)

  /** The goroutine that runs an execution: not yet scheduled, inside the backend call, or returned. */
  datatype RunPc = Spawned | InBackend | RunnerDone

  datatype Watch = Watch(topic: Topic, follower: Follower<Event>)

  type Feeds = map<Topic, Log<Event>>

  datatype Config = Config(
    execEventLimit: int,
    sandboxEventLimit: int,
    execCapacity: nat,
    sandboxCapacity: nat,
    outputLimit: int,
    finishedLimit: int,
    stoppedLimit: int,
    maxAge: int,
    backends: set<string>,
    downloaders: set<string>,
    transport: bool)

  /** The four maps of the service, the feeds, and around them: runner goroutines, terminate and download calls
      in flight, cancel functions taken but not yet called, cancelled run contexts, interactive connections,
      issued and consumed session ids, the signals of accepted cancellations, and followers. */
  datatype State = State(
    sandboxes: map<Id, Sandbox>,
    executions: map<Key, Execution>,
    sessions: map<Id, Session>,
    attached: set<Key>,
    feeds: Feeds,
    runners: map<Key, RunPc>,
    terminating: multiset<Id>,
    downloads: multiset<Id>,
    cancels: multiset<Key>,
    ctxCanceled: set<Key>,
    handlers: map<nat, Key>,
    issued: set<Id>,
    consumed: set<Id>,
    signals: map<Key, seq<int>>,
    watches: map<nat, Watch>)

  function Initial(): State {
    State(map[], map[], map[], {}, map[], map[], multiset{}, multiset{}, multiset{}, {}, map[], {}, {}, map[], map[])
  }

  function BoundsOf(t: Topic, cfg: Config): Bounds {
    if t.OfExec? then Bounds(cfg.execEventLimit, cfg.execCapacity)
    else Bounds(cfg.sandboxEventLimit, cfg.sandboxCapacity)
  }

  predicate Live(executions: map<Key, Execution>, k: Key) {
    k in executions && !Final(executions[k].status)
  }

  function CancelExitCode(signal: int): (code: int)
    ensures 129 <= code <= 255
    ensures 0 < signal <= 127 ==> code - 128 == signal
  {
    if signal <= 0 || signal > 127 then 130 else 128 + signal
  }

  datatype ContextErr = NoErr | CanceledErr | DeadlineErr

  function RunErrorStatus(e: Execution, ctx: ContextErr): (Status, int) {
    if e.cancelRequested || ctx.CanceledErr? then (Canceled, CancelExitCode(e.cancelSignal))
    else if ctx.DeadlineErr? then (TimedOut, 124)
    else (Failed, 1)
  }

  // ---- Building blocks ----

  function Emit(feeds: Feeds, t: Topic, e: Event, cfg: Config): Feeds {
    if t in feeds then feeds[t := Record(feeds[t], e, BoundsOf(t, cfg))] else feeds
  }

  function Seal(feeds: Feeds, t: Topic): Feeds {
    if t in feeds then feeds[t := CloseDone(feeds[t])] else feeds
  }

  function Topics(keys: set<Key>): set<Topic> {
    set k | k in keys :: OfExec(k)
  }

  function DropFeeds(feeds: Feeds, gone: set<Topic>): Feeds {
    map t | t in feeds :: if t in gone then Drop(feeds[t]) else feeds[t]
  }

  function ClearInteractive(s: State, gone: set<Key>): State {
    s.(attached := s.attached - gone,
       sessions := map i | i in s.sessions && s.sessions[i].key !in gone :: s.sessions[i])
  }

  function Finished(e: Execution, status: Status, code: int, message: string, now: nat): Execution {
    e.(status := status, exitCode := code, message := message, finishedAt := Some(now))
  }

  function ExitEvent(status: Status, code: int, message: string, exitMessage: string): Event {
    ExecEvent(status, Exit(code, status, if exitMessage == "" then message else exitMessage))
  }

  /** finalizeExecutionInternalLocked without its pruning. */
  function Finalize(s: State, k: Key, status: Status, code: int, message: string, exitMessage: string, now: nat,
                    cfg: Config): State
    requires k in s.executions
  {
    var s1 := s.(executions := s.executions[k := Finished(s.executions[k], status, code, message, now)],
                 feeds := Seal(Emit(s.feeds, OfExec(k), ExitEvent(status, code, message, exitMessage), cfg),
                               OfExec(k)));
    ClearInteractive(s1, {k})
  }

  // ---- Pruning ----

  function ExecTerminalTime(e: Execution): nat {
    if e.finishedAt.Some? then e.finishedAt.value else if e.startedAt.Some? then e.startedAt.value else 0
  }

  function SandboxTerminalTime(sb: Sandbox): nat {
    if sb.updatedAt != 0 then sb.updatedAt else sb.createdAt
  }

  predicate Expired(t: nat, now: nat, cfg: Config) {
    cfg.maxAge > 0 && t != 0 && now - t > cfg.maxAge
  }

  function ExecCandidates(executions: map<Key, Execution>, now: nat, cfg: Config): map<Key, nat> {
    map k | k in executions && Final(executions[k].status) && !Expired(ExecTerminalTime(executions[k]), now, cfg)
      :: ExecTerminalTime(executions[k])
  }

  ghost function KeptExecutions(executions: map<Key, Execution>, now: nat, cfg: Config): set<Key> {
    (set k | k in executions && Live(executions, k))
    + KeepNewest(ExecCandidates(executions, now, cfg), ExecutionKey, cfg.finishedLimit)
  }

  predicate HasLive(executions: map<Key, Execution>, id: Id) {
    exists k :: k in executions && k.sandbox == id && Live(executions, k)
  }

  predicate Stale(s: State, id: Id) {
    id in s.sandboxes && s.sandboxes[id].status.Stopped? && !HasLive(s.executions, id)
  }

  function SandboxCandidates(s: State, now: nat, cfg: Config): map<Id, nat> {
    map id | id in s.sandboxes && Stale(s, id) && !Expired(SandboxTerminalTime(s.sandboxes[id]), now, cfg)
      :: SandboxTerminalTime(s.sandboxes[id])
  }

  function IdName(id: Id): string {
    id
  }

  ghost function KeptSandboxes(s: State, now: nat, cfg: Config): set<Id> {
    (set id | id in s.sandboxes && !Stale(s, id)) + KeepNewest(SandboxCandidates(s, now, cfg), IdName, cfg.stoppedLimit)
  }

  function DropExecutions(s: State, gone: set<Key>): State {
    ClearInteractive(s, gone).(
      executions := map k | k in s.executions && k !in gone :: s.executions[k],
      feeds := DropFeeds(s.feeds, Topics(gone)))
  }

  function DropSandboxes(s: State, gone: set<Id>): State {
    s.(sandboxes := map id | id in s.sandboxes && id !in gone :: s.sandboxes[id],
       feeds := DropFeeds(s.feeds, set id | id in gone :: OfSandbox(id)))
  }

  ghost function PruneExecutions(s: State, now: nat, cfg: Config): State {
    DropExecutions(s, s.executions.Keys - KeptExecutions(s.executions, now, cfg))
  }

  ghost function PruneSandboxes(s: State, now: nat, cfg: Config): State {
    DropSandboxes(s, s.sandboxes.Keys - KeptSandboxes(s, now, cfg))
  }

  ghost function Prune(s: State, now: nat, cfg: Config): State {
    PruneSandboxes(PruneExecutions(s, now, cfg), now, cfg)
  }

  // ---- Sandboxes ----

  ghost function CreateSandbox(s: State, id: Id, backend: string, now: nat, cfg: Config): State {
    var sb, event := Sandbox(backend, Ready, None, false, now, now), SandboxEvent(Ready, "sandbox created and ready");
    var s1 := s.(sandboxes := s.sandboxes[id := sb],
                 feeds := s.feeds[OfSandbox(id) := Record(EmptyLog(), event, BoundsOf(OfSandbox(id), cfg))]);
    Prune(s1, now, cfg)
  }

  function SetSandbox(s: State, id: Id, status: SandboxStatus, text: string, now: nat, cfg: Config): State
    requires id in s.sandboxes
  {
    s.(sandboxes := s.sandboxes[id := s.sandboxes[id].(status := status, updatedAt := now)],
       feeds := Emit(s.feeds, OfSandbox(id), SandboxEvent(status, text), cfg))
  }

  function Doomed(executions: map<Key, Execution>, id: Id): set<Key> {
    set k | k in executions && k.sandbox == id && !Final(executions[k].status)
  }

  const TERM_SIGNAL := 15
  const TERM_TEXT := "execution canceled due to sandbox termination"
  const TERM_EXIT := "execution canceled before start (sandbox termination)"

  function Terminated(e: Execution, now: nat): Execution {
    var e1 := e.(cancelRequested := true, cancelSignal := TERM_SIGNAL);
    if e.status.Queued? then Finished(e1, Canceled, CancelExitCode(TERM_SIGNAL), e.message, now) else e1
  }

  function TerminatedFeed(l: Log<Event>, e: Execution, b: Bounds): Log<Event> {
    var l1 := Record(l, ExecEvent(e.status, Message(TERM_TEXT)), b);
    if e.status.Queued? then
      CloseDone(Record(l1, ExitEvent(Canceled, CancelExitCode(TERM_SIGNAL), e.message, TERM_EXIT), b))
    else l1
  }

  /** Every live execution of the sandbox is told to stop; queued ones end at once. */
  function TerminateExecutions(s: State, id: Id, now: nat, cfg: Config): State {
    var doomed := Doomed(s.executions, id);
    var queued := set k | k in doomed && s.executions[k].status.Queued?;
    var running := set k | k in doomed && !s.executions[k].status.Queued? && s.executions[k].hasCancel;
    ClearInteractive(s, queued).(
      executions := map k | k in s.executions ::
        if k in doomed then Terminated(s.executions[k], now) else s.executions[k],
      feeds := map t | t in s.feeds ::
        if t.OfExec? && t.key in doomed then TerminatedFeed(s.feeds[t], s.executions[t.key], BoundsOf(t, cfg))
        else s.feeds[t],
      cancels := s.cancels + multiset(running),
      signals := map k | k in s.signals :: if k in doomed then s.signals[k] + [TERM_SIGNAL] else s.signals[k])
  }

  function MarkStopping(s: State, id: Id, now: nat, cfg: Config): State
    requires id in s.sandboxes
  {
    if s.sandboxes[id].status.Stopping? then s
    else SetSandbox(s, id, Stopping, "sandbox termination requested", now, cfg)
  }

  /** First critical section of TerminateSandbox; from here the call is in flight. */
  function TerminateBegin(s: State, id: Id, now: nat, cfg: Config): State {
    if id !in s.sandboxes then s
    else
      (if s.sandboxes[id].status.Stopped? then s
       else TerminateExecutions(MarkStopping(s, id, now, cfg), id, now, cfg)
      ).(terminating := s.terminating + multiset{id})
  }

  /** Second critical section; `ok` is false when the backend's terminate call failed. */
  ghost function TerminateEnd(s: State, id: Id, ok: bool, now: nat, cfg: Config): State {
    var s1 := s.(terminating := s.terminating - multiset{id});
    if !ok then s1
    else
      var s2 := if id in s.sandboxes && !s.sandboxes[id].status.Stopped? then
                  var stopped := SetSandbox(s1, id, Stopped, "sandbox terminated", now, cfg);
                  stopped.(feeds := Seal(stopped.feeds, OfSandbox(id)))
                else s1;
      Prune(s2, now, cfg)
  }

  datatype Verdict = Accepted | UnknownSandbox | NotReady | UnknownBackend | Unsupported | Busy

  function ActiveLive(s: State, id: Id): bool
    requires id in s.sandboxes
  {
    s.sandboxes[id].active.Some? && Live(s.executions, Key(id, s.sandboxes[id].active.value))
  }

  function DownloadVerdict(s: State, id: Id, cfg: Config): Verdict {
    if id !in s.sandboxes then UnknownSandbox
    else if !s.sandboxes[id].status.Ready? then NotReady
    else if s.sandboxes[id].backend !in cfg.backends then UnknownBackend
    else if s.sandboxes[id].backend !in cfg.downloaders then Unsupported
    else if s.sandboxes[id].download || ActiveLive(s, id) then Busy
    else Accepted
  }

  function DownloadBegin(s: State, id: Id, cfg: Config): State {
    if DownloadVerdict(s, id, cfg).Accepted? then
      s.(sandboxes := s.sandboxes[id := s.sandboxes[id].(download := true)], downloads := s.downloads + multiset{id})
    else s
  }

  function DownloadEnd(s: State, id: Id): State {
    s.(sandboxes := if id in s.sandboxes then s.sandboxes[id := s.sandboxes[id].(download := false)] else s.sandboxes,
       downloads := s.downloads - multiset{id})
  }

  // ---- Executions ----

  function CreateVerdict(s: State, id: Id, cfg: Config): Verdict {
    if id !in s.sandboxes then UnknownSandbox
    else if !s.sandboxes[id].status.Ready? then NotReady
    else if s.sandboxes[id].backend !in cfg.backends then UnknownBackend
    else if ActiveLive(s, id) || s.sandboxes[id].download then Busy
    else Accepted
  }

  function NewExecution(kind: Kind): Execution {
    Execution(kind, Queued, 0, None, None, "", "", "", false, 0, false, false)
  }

  /** The state after an accepted CreateExecution, before it prunes. */
  function Enqueued(s: State, k: Key, kind: Kind, now: nat, cfg: Config): State
    requires k.sandbox in s.sandboxes
  {
    var sb := s.sandboxes[k.sandbox].(active := Some(k.exec), updatedAt := now);
    s.(sandboxes := s.sandboxes[k.sandbox := sb],
       executions := s.executions[k := NewExecution(kind)],
       feeds := s.feeds[OfExec(k) := Record(EmptyLog(), ExecEvent(Queued, Message("execution queued")),
                                            BoundsOf(OfExec(k), cfg))],
       runners := s.runners[k := Spawned],
       signals := s.signals[k := []])
  }

  ghost function CreateExecution(s: State, k: Key, kind: Kind, now: nat, cfg: Config): State {
    match CreateVerdict(s, k.sandbox, cfg)
    case Accepted => Prune(Enqueued(s, k, kind, now, cfg), now, cfg)
    case Busy =>
      // a stale active pointer is forgotten even when a download then refuses the request
      if ActiveLive(s, k.sandbox) then s
      else s.(sandboxes := s.sandboxes[k.sandbox := s.sandboxes[k.sandbox].(active := None)])
    case _ => s
  }

  function Started(s: State, k: Key, now: nat, cfg: Config): State
    requires k in s.executions
  {
    s.(executions := s.executions[k := s.executions[k].(status := Running, startedAt := Some(now), hasCancel := true)],
       feeds := Emit(s.feeds, OfExec(k), ExecEvent(Running, Message("execution started")), cfg),
       runners := s.runners[k := InBackend])
  }

  /** First critical section of the runner goroutine. */
  ghost function BeginRun(s: State, k: Key, now: nat, cfg: Config): State {
    var quit := s.(runners := s.runners[k := RunnerDone]);
    if !Live(s.executions, k) then quit
    else if k.sandbox !in s.sandboxes then
      Prune(Finalize(quit, k, Failed, 1, s.executions[k].message, "sandbox no longer exists", now, cfg), now, cfg)
    else if !s.sandboxes[k.sandbox].status.Ready? then
      Prune(Finalize(quit, k, Canceled, CancelExitCode(s.executions[k].cancelSignal), s.executions[k].message,
                     "sandbox is not ready", now, cfg), now, cfg)
    else if s.sandboxes[k.sandbox].backend !in cfg.backends then
      Prune(Finalize(quit, k, Failed, 1, s.executions[k].message, "unknown backend", now, cfg), now, cfg)
    else Started(s, k, now, cfg)
  }

  function OutputPayload(isStdout: bool, text: string): Payload {
    if isStdout then Stdout(text) else Stderr(text)
  }

  function WithOutput(e: Execution, isStdout: bool, chunk: string, limit: int): Execution {
    if isStdout then e.(stdout := AppendRetainedOutput(e.stdout, chunk, limit))
    else e.(stderr := AppendRetainedOutput(e.stderr, chunk, limit))
  }

  function WithReplaced(e: Execution, isStdout: bool, text: string, limit: int): Execution {
    if isStdout then e.(stdout := AppendRetainedOutput("", text, limit))
    else e.(stderr := AppendRetainedOutput("", text, limit))
  }

  function AppendOutput(s: State, k: Key, isStdout: bool, status: Status, chunk: string, cfg: Config): (r: State)
    requires k in s.executions
    ensures r.executions.Keys == s.executions.Keys && r.runners == s.runners && r.sessions == s.sessions
    ensures r.sandboxes == s.sandboxes
  {
    if chunk == "" then s
    else
      s.(executions := s.executions[k := WithOutput(s.executions[k], isStdout, chunk, cfg.outputLimit)],
         feeds := Emit(s.feeds, OfExec(k), ExecEvent(status, OutputPayload(isStdout, chunk)), cfg))
  }

  function ReplaceOutput(s: State, k: Key, isStdout: bool, status: Status, text: string, cfg: Config): (r: State)
    requires k in s.executions
    ensures r.executions.Keys == s.executions.Keys && r.runners == s.runners && r.sessions == s.sessions
    ensures r.sandboxes == s.sandboxes
  {
    if text == "" then s
    else
      s.(executions := s.executions[k := WithReplaced(s.executions[k], isStdout, text, cfg.outputLimit)],
         feeds := Emit(s.feeds, OfExec(k), ExecEvent(status, OutputPayload(isStdout, text)), cfg))
  }

  /** A backend callback with output, for the execution under `k` if it is still stored and not final. */
  function OutputChunk(s: State, k: Key, isStdout: bool, chunk: string, cfg: Config): State {
    if Live(s.executions, k) then AppendOutput(s, k, isStdout, s.executions[k].status, chunk, cfg) else s
  }

  function SetAttach(s: State, k: Key): State {
    if Live(s.executions, k) then s.(executions := s.executions[k := s.executions[k].(hasAttach := true)]) else s
  }

  datatype RunResult = RunFailed(error: string) | RunOk(exitCode: int, message: string, stdout: string, stderr: string)

  function MergeOne(s: State, k: Key, isStdout: bool, buffered: string, streaming: bool, cfg: Config): (r: State)
    requires k in s.executions
    ensures r.executions.Keys == s.executions.Keys && r.runners == s.runners && r.sessions == s.sessions
    ensures r.sandboxes == s.sandboxes
  {
    var retained := if isStdout then s.executions[k].stdout else s.executions[k].stderr;
    match if streaming then BufferedResultDelta(retained, buffered, cfg.outputLimit) else Append(buffered)
    case Append(text) => AppendOutput(s, k, isStdout, Running, text, cfg)
    case Replace(text) => ReplaceOutput(s, k, isStdout, Running, text, cfg)
  }

  /** The final status and exit code of a run the backend completed. */
  function CompletedStatus(e: Execution, exitCode: int): (Status, int) {
    if e.cancelRequested then (Canceled, CancelExitCode(e.cancelSignal))
    else if exitCode == 0 then (Succeeded, exitCode)
    else (Failed, Int32(exitCode))
  }

  /** The runner takes its handles down and gives the sandbox back. */
  function RunReturned(s: State, k: Key, now: nat): (r: State)
    requires k in s.executions
    ensures r.executions.Keys == s.executions.Keys && r.sessions == s.sessions
  {
    s.(sandboxes := if k.sandbox in s.sandboxes && s.sandboxes[k.sandbox].active == Some(k.exec)
                    then s.sandboxes[k.sandbox := s.sandboxes[k.sandbox].(active := None, updatedAt := now)]
                    else s.sandboxes,
       executions := s.executions[k := s.executions[k].(hasCancel := false, hasAttach := false)],
       runners := s.runners[k := RunnerDone])
  }

  /** A completed run's message and buffered output are taken over; a failure message missing from stderr is added. */
  function WithResult(s: State, k: Key, code: int, message: string, out: string, err: string, streaming: bool,
                      cfg: Config): (r: State)
    requires k in s.executions
    ensures r.executions.Keys == s.executions.Keys && r.runners == s.runners && r.sessions == s.sessions
    ensures r.sandboxes == s.sandboxes
  {
    var s2 := s.(executions := s.executions[k := s.executions[k].(message := message)]);
    var s3 := MergeOne(s2, k, true, out, streaming, cfg);
    var s4 := MergeOne(s3, k, false, err, streaming, cfg);
    WithComplaint(s4, k, code, message, cfg)
  }

  function WithComplaint(s: State, k: Key, code: int, message: string, cfg: Config): (r: State)
    requires k in s.executions
    ensures r.executions.Keys == s.executions.Keys && r.runners == s.runners && r.sessions == s.sessions
    ensures r.sandboxes == s.sandboxes
  {
    if code != 0 && !Blank(message) && !Contains(s.executions[k].stderr, message)
    then AppendOutput(s, k, false, Running, message + "\n", cfg) else s
  }

  /** Everything the second critical section of the runner does before it finalizes. */
  function Collected(s: State, k: Key, result: RunResult, streaming: bool, now: nat, cfg: Config): (r: State)
    requires k in s.executions
    ensures r.executions.Keys == s.executions.Keys && r.sessions == s.sessions
  {
    var s1 := RunReturned(s, k, now);
    match result
    case RunFailed(error) =>
      var ctx := if k in s.ctxCanceled then CanceledErr else NoErr;
      if Blank(error) then s1
      else AppendOutput(s1, k, false, RunErrorStatus(s.executions[k], ctx).0, error + "\n", cfg)
    case RunOk(code, message, out, err) => WithResult(s1, k, code, message, out, err, streaming, cfg)
  }

  function RunOutcome(s: State, k: Key, result: RunResult): (Status, int)
    requires k in s.executions
  {
    match result
    case RunFailed(_) => RunErrorStatus(s.executions[k], if k in s.ctxCanceled then CanceledErr else NoErr)
    case RunOk(code, _, _, _) => CompletedStatus(s.executions[k], code)
  }

  function ResultMessage(result: RunResult): string {
    if result.RunFailed? then result.error else result.message
  }

  /** Second critical section of the runner goroutine. */
  ghost function FinishRun(s: State, k: Key, result: RunResult, streaming: bool, now: nat, cfg: Config): State {
    if k !in s.executions then s.(runners := s.runners[k := RunnerDone])
    else
      var (status, code) := RunOutcome(s, k, result);
      Prune(Finalize(Collected(s, k, result, streaming, now, cfg), k, status, code, ResultMessage(result), "", now,
                     cfg), now, cfg)
  }

  function NormalSignal(signal: int): int {
    if signal == 0 then 2 else signal
  }

  /** An accepted cancellation is noted and announced. */
  function CancelNoted(s: State, k: Key, signal: int, cfg: Config): (r: State)
    requires k in s.executions
    ensures r.executions.Keys == s.executions.Keys
  {
    var e := s.executions[k];
    s.(executions := s.executions[k := e.(cancelRequested := true, cancelSignal := signal)],
       feeds := Emit(s.feeds, OfExec(k), ExecEvent(e.status, Message("cancel requested")), cfg),
       signals := if k in s.signals then s.signals[k := s.signals[k] + [signal]] else s.signals)
  }

  ghost function Cancel(s: State, k: Key, signal: int, now: nat, cfg: Config): State {
    if !Live(s.executions, k) then s
    else
      var e, n := s.executions[k], NormalSignal(signal);
      var s1 := CancelNoted(s, k, n, cfg);
      if e.status.Queued? then
        Prune(Finalize(s1, k, Canceled, CancelExitCode(n), e.message, "execution canceled before start", now, cfg),
              now, cfg)
      else if e.hasCancel then s1.(cancels := s.cancels + multiset{k})
      else s1
  }

  /** A cancel function taken under the lock is called after it is released. */
  function CallCancel(s: State, k: Key): State {
    s.(cancels := s.cancels - multiset{k}, ctxCanceled := s.ctxCanceled + {k})
  }

  // ---- Interactive sessions ----

  predicate LiveInteractive(executions: map<Key, Execution>, k: Key) {
    Live(executions, k) && executions[k].kind.Interactive?
  }

  function Unexpired(sessions: map<Id, Session>, now: nat): map<Id, Session> {
    map i | i in sessions && now <= sessions[i].expiresAt :: sessions[i]
  }

  predicate Pending(sessions: map<Id, Session>, k: Key) {
    exists i :: i in sessions && sessions[i].key == k
  }

  predicate CanOpen(s: State, k: Key, now: nat, cfg: Config) {
    && cfg.transport && LiveInteractive(s.executions, k)
    && k !in s.attached && !Pending(Unexpired(s.sessions, now), k)
  }

  function OpenSession(s: State, id: Id, k: Key, token: string, ttl: nat, now: nat, cfg: Config): State {
    if !cfg.transport || !LiveInteractive(s.executions, k) then s
    else
      var s1 := s.(sessions := Unexpired(s.sessions, now));
      if CanOpen(s, k, now, cfg) then
        s1.(sessions := s1.sessions[id := Session(k, token, now + ttl)], issued := s1.issued + {id})
      else s1
  }

  predicate CanConsume(s: State, id: Id, token: string, now: nat) {
    var open := Unexpired(s.sessions, now);
    && id in open && open[id].token == token
    && LiveInteractive(s.executions, open[id].key) && open[id].key !in s.attached
  }

  function ConsumeSession(s: State, h: nat, id: Id, token: string, now: nat): State {
    var open := Unexpired(s.sessions, now);
    if id !in open || open[id].token != token then s.(sessions := open)
    else
      var k := open[id].key;
      var s1 := s.(sessions := open - {id});
      if CanConsume(s, id, token, now) then
        s1.(attached := s1.attached + {k}, consumed := s1.consumed + {id}, handlers := s1.handlers[h := k])
      else s1
  }

  function ReleaseSession(s: State, h: nat): State {
    if h in s.handlers then s.(attached := s.attached - {s.handlers[h]}, handlers := s.handlers - {h}) else s
  }

  // ---- Followers ----

  predicate Stored(s: State, t: Topic) {
    match t case OfExec(k) => k in s.executions case OfSandbox(id) => id in s.sandboxes
  }

  function StartWatch(s: State, w: nat, t: Topic, mode: Mode): State {
    if Stored(s, t) && t in s.feeds then
      s.(watches := s.watches[w := Watch(t, Start(s.feeds[t], mode))],
         feeds := s.feeds[t := Subscribe(s.feeds[t])])
    else s
  }

  /** The choices a follower's select can take. */
  datatype FollowMove = NextHistory | TakeEvent | SeeClosed | SeeDone | FindDry | GiveUp

  predicate CanMove(s: State, w: nat, m: FollowMove) {
    && w in s.watches && s.watches[w].topic in s.feeds
    && var f, l := s.watches[w].follower, s.feeds[s.watches[w].topic];
    && f.sub in l.chans
    && match m
       case NextHistory => f.pc.History?
       case TakeEvent => CanTake(l, f)
       case SeeClosed => SeesClosed(l, f)
       case SeeDone => f.pc.Following? && l.doneClosed
       case FindDry => DrainedDry(l, f)
       case GiveUp => !f.pc.Returned?
  }

  function Moved(l: Log<Event>, f: Follower<Event>, m: FollowMove): Follower<Event>
    requires f.sub in l.chans
    requires m.NextHistory? ==> f.pc.History?
    requires m.TakeEvent? ==> CanTake(l, f)
  {
    match m
    case NextHistory => HistoryStep(f, l.chans[f.sub], IsExit)
    case TakeEvent => TakeStep(l, f, IsExit)
    case SeeClosed => ClosedStep(l, f)
    case SeeDone => DoneStep(f)
    case FindDry => DrainedStep(f)
    case GiveUp => f.(pc := Returned(Abandoned))
  }

  function MoveWatch(s: State, w: nat, m: FollowMove): State
    requires CanMove(s, w, m)
  {
    var watch := s.watches[w];
    var l := s.feeds[watch.topic];
    s.(watches := s.watches[w := watch.(follower := Moved(l, watch.follower, m))],
       feeds := if m.TakeEvent? then s.feeds[watch.topic := Receive(l, watch.follower.sub)] else s.feeds)
  }

  /** The deferred unsubscribe of a follower that has returned. */
  function EndWatch(s: State, w: nat): State
    requires w in s.watches
  {
    var watch := s.watches[w];
    if Stored(s, watch.topic) && watch.topic in s.feeds
    then s.(feeds := s.feeds[watch.topic := Unsubscribe(s.feeds[watch.topic], watch.follower.sub)])
    else s
  }

  // ---- The transition system ----

  datatype Op =
    | OpCreateSandbox(id: Id, backend: string, now: nat)
    | OpTerminateBegin(id: Id, now: nat)
    | OpTerminateEnd(id: Id, ok: bool, now: nat)
    | OpDownloadBegin(id: Id)
    | OpDownloadEnd(id: Id)
    | OpCreateExecution(key: Key, kind: Kind, now: nat)
    | OpBeginRun(key: Key, now: nat)
    | OpOutput(key: Key, isStdout: bool, chunk: string)
    | OpAttach(key: Key)
    | OpFinishRun(key: Key, result: RunResult, streaming: bool, now: nat)
    | OpCancel(key: Key, signal: int, now: nat)
    | OpCallCancel(key: Key)
    | OpOpen(session: Id, key: Key, token: string, ttl: nat, now: nat)
    | OpConsume(handler: nat, session: Id, token: string, now: nat)
    | OpRelease(handler: nat)
    | OpWatch(watch: nat, topic: Topic, mode: Mode)
    | OpMove(watch: nat, move: FollowMove)
    | OpEndWatch(watch: nat)

  /** When the environment can take a step: generated ids are fresh, goroutines run in order, calls in flight end. */
  ghost predicate Enabled(s: State, op: Op, cfg: Config) {
    match op
    case OpCreateSandbox(id, backend, _) => OfSandbox(id) !in s.feeds && backend in cfg.backends && SlashFree(id)
    case OpTerminateEnd(id, _, _) => id in s.terminating
    case OpDownloadEnd(id) => id in s.downloads
    case OpCreateExecution(k, _, _) => OfExec(k) !in s.feeds && SlashFree(k.exec)
    case OpBeginRun(k, _) => k in s.runners && s.runners[k].Spawned?
    case OpOutput(k, _, _) => k in s.runners && !s.runners[k].Spawned?
    case OpAttach(k) => k in s.runners && !s.runners[k].Spawned?
    case OpFinishRun(k, _, _, _) => k in s.runners && s.runners[k].InBackend?
    case OpCallCancel(k) => k in s.cancels
    case OpOpen(session, _, _, _, _) => session !in s.issued
    case OpConsume(h, _, _, _) => h !in s.handlers
    case OpRelease(h) => h in s.handlers
    case OpWatch(w, _, _) => w !in s.watches
    case OpMove(w, m) => CanMove(s, w, m)
    case OpEndWatch(w) => w in s.watches && s.watches[w].follower.pc.Returned?
    case _ => true
  }

  ghost function Apply(s: State, op: Op, cfg: Config): State
    requires Enabled(s, op, cfg)
  {
    match op
    case OpCreateSandbox(id, backend, now) => CreateSandbox(s, id, backend, now, cfg)
    case OpTerminateBegin(id, now) => TerminateBegin(s, id, now, cfg)
    case OpTerminateEnd(id, ok, now) => TerminateEnd(s, id, ok, now, cfg)
    case OpDownloadBegin(id) => DownloadBegin(s, id, cfg)
    case OpDownloadEnd(id) => DownloadEnd(s, id)
    case OpCreateExecution(k, kind, now) => CreateExecution(s, k, kind, now, cfg)
    case OpBeginRun(k, now) => BeginRun(s, k, now, cfg)
    case OpOutput(k, isStdout, chunk) => OutputChunk(s, k, isStdout, chunk, cfg)
    case OpAttach(k) => SetAttach(s, k)
    case OpFinishRun(k, result, streaming, now) => FinishRun(s, k, result, streaming, now, cfg)
    case OpCancel(k, signal, now) => Cancel(s, k, signal, now, cfg)
    case OpCallCancel(k) => CallCancel(s, k)
    case OpOpen(session, k, token, ttl, now) => OpenSession(s, session, k, token, ttl, now, cfg)
    case OpConsume(h, session, token, now) => ConsumeSession(s, h, session, token, now)
    case OpRelease(h) => ReleaseSession(s, h)
    case OpWatch(w, t, mode) => StartWatch(s, w, t, mode)
    case OpMove(w, m) => MoveWatch(s, w, m)
    case OpEndWatch(w) => EndWatch(s, w)
  }
}

/** A run of the control service in which a stream returns nil without the exit event: the subscriber's channel
    holds one event, and the execution ends before the stream takes it. */
module MissedExit {
  import opened Seqs
  import opened EventLog
  import opened Followers
  import opened ServiceModel
  import opened ServiceTheorems
  import opened ServicePruning

  const K := Key("s", "e")
  const T := OfExec(K)

  /** Channels of capacity one; everything else roomy. */
  function Cfg(): Config {
    Config(8, 8, 1, 1, 8, 8, 8, 0, {"b"}, {}, false)
  }

  const QUEUED := ExecEvent(Queued, Message("execution queued"))
  const STARTED := ExecEvent(Running, Message("execution started"))
  const EXIT := ExecEvent(Succeeded, Exit(0, Succeeded, ""))

  function Ops(): seq<Op> {
    [OpCreateSandbox("s", "b", 1), OpCreateExecution(K, Batch, 1), OpWatch(0, T, Follow), OpBeginRun(K, 2),
     OpFinishRun(K, RunOk(0, "", "", ""), true, 3),
     OpMove(0, NextHistory), OpMove(0, NextHistory), OpMove(0, TakeEvent), OpMove(0, SeeClosed)]
  }

  /** What matters of a state: the execution's feed and the one follower. */
  ghost predicate At(s: State, l: Log<Event>, f: Follower<Event>) {
    T in s.feeds && s.feeds[T] == l && 0 in s.watches && s.watches[0] == Watch(T, f)
  }

  function Feed(trace: seq<Event>, received: seq<Event>, buffer: seq<Event>, open: bool): Log<Event> {
    Log(trace, trace,
        map[0 := Chan(0, [QUEUED], received, buffer, if open then StillOpen else Overflowed, if open then 0 else 1, 0)],
        if open then {0} else {}, 1, !open, if open then 0 else 1)
  }

  function Stream(pc: Pc, sent: seq<Event>): Follower<Event> {
    Follower(Follow, 0, pc, sent)
  }

  function Full(): Log<Event> {
    Feed([QUEUED, STARTED, EXIT], [], [STARTED], false)
  }

  function Dry(): Log<Event> {
    Feed([QUEUED, STARTED, EXIT], [STARTED], [], false)
  }

  // The states on the way, as far as they matter

  ghost predicate Idle(s: State) {
    && s.sandboxes == map["s" := Sandbox("b", Ready, None, false, 1, 1)] && s.executions == map[] && T !in s.feeds
    && s.watches == map[]
  }

  ghost predicate Queueing(s: State) {
    && "s" in s.sandboxes && s.sandboxes["s"].status.Ready? && s.sandboxes["s"].backend == "b"
    && K in s.executions && s.executions[K] == NewExecution(Batch) && K in s.runners && s.runners[K].Spawned?
  }

  ghost predicate Waiting(s: State) {
    Queueing(s) && T in s.feeds && s.feeds[T] == Log([QUEUED], [QUEUED], map[], {}, 0, false, 0) && s.watches == map[]
  }

  ghost predicate Watched(s: State) {
    Queueing(s) && At(s, Feed([QUEUED], [], [], true), Stream(History(0), []))
  }

  ghost predicate Underway(s: State) {
    && At(s, Feed([QUEUED, STARTED], [], [STARTED], true), Stream(History(0), []))
    && K in s.executions && K in s.runners && s.runners[K].InBackend?
    && s.executions[K] == NewExecution(Batch).(status := Running, startedAt := Some(2), hasCancel := true)
  }

  // ---- Up to the end of the run ----

  lemma CreateStep()
    ensures Idle(CreateSandbox(Initial(), "s", "b", 1, Cfg()))
  {
    var sb := Sandbox("b", Ready, None, false, 1, 1);
    var event := SandboxEvent(Ready, "sandbox created and ready");
    var s1 := Initial().(sandboxes := map["s" := sb],
                         feeds := map[OfSandbox("s") := Record(EmptyLog(), event, BoundsOf(OfSandbox("s"), Cfg()))]);
    assert map["s" := sb] == Initial().sandboxes["s" := sb];
    PruneIdle(s1, 1, Cfg());
  }

  lemma EnqueueStep(s: State)
    requires Idle(s)
    ensures Waiting(CreateExecution(s, K, Batch, 1, Cfg()))
  {
    var s1 := Enqueued(s, K, Batch, 1, Cfg());
    PruneIdle(s1, 1, Cfg());
    assert s1.feeds[T] == Record(EmptyLog(), QUEUED, BoundsOf(T, Cfg()));
    assert s1.feeds[T].trace == [QUEUED] && s1.feeds[T].history == [QUEUED];
    assert s1.feeds[T].chans == map[] && s1.feeds[T].subs == {};
  }

  lemma WatchStep(s: State)
    requires Waiting(s)
    ensures Watched(StartWatch(s, 0, T, Follow))
  {
    var s' := StartWatch(s, 0, T, Follow);
    assert s'.feeds[T].chans == Feed([QUEUED], [], [], true).chans;
  }

  lemma BeginStep(s: State)
    requires Watched(s)
    ensures Underway(BeginRun(s, K, 2, Cfg()))
  {
    StartFits();
  }

  lemma StartFits()
    ensures Record(Feed([QUEUED], [], [], true), STARTED, BoundsOf(T, Cfg()))
              == Feed([QUEUED, STARTED], [], [STARTED], true)
  {
    var l := Record(Feed([QUEUED], [], [], true), STARTED, BoundsOf(T, Cfg()));
    var l' := Feed([QUEUED, STARTED], [], [STARTED], true);
    assert l.trace == l'.trace && l.history == l'.history && l.subs == l'.subs;
    assert [] + [STARTED] == [STARTED];
    assert l.chans == l'.chans;
  }

  lemma ExitOverflows()
    ensures CloseDone(Record(Feed([QUEUED, STARTED], [], [STARTED], true), EXIT, BoundsOf(T, Cfg())))
            == Full()
  {
    var l := CloseDone(Record(Feed([QUEUED, STARTED], [], [STARTED], true), EXIT, BoundsOf(T, Cfg())));
    var l' := Full();
    assert l.trace == l'.trace && l.history == l'.history && l.subs == l'.subs;
    assert l.chans == l'.chans;
  }

  /** A finished feed without subscribers is left alone by pruning. */
  lemma PruneSpares(s: State, l: Log<Event>, f: Follower<Event>)
    requires At(s, l, f) && l.subs == {} && l.doneClosed
    ensures At(Prune(s, 3, Cfg()), l, f)
  {
    assert CloseSubscribers(l).chans == l.chans;
    assert Drop(l) == l;
  }

  lemma FinishStep(s: State)
    requires Underway(s)
    ensures At(FinishRun(s, K, RunOk(0, "", "", ""), true, 3, Cfg()), Full(), Stream(History(0), []))
  {
    var s1 := Collected(s, K, RunOk(0, "", "", ""), true, 3, Cfg());
    assert s1.feeds == s.feeds && s1.watches == s.watches;
    var s2 := Finalize(s1, K, Succeeded, 0, "", "", 3, Cfg());
    ExitOverflows();
    assert At(s2, Full(), Stream(History(0), []));
    PruneSpares(s2, Full(), Stream(History(0), []));
  }

  lemma Continue(states: seq<State>, i: nat, s: State)
    requires i < |Ops()| && IsRun(states, Ops()[..i], Cfg()) && Enabled(states[i], Ops()[i], Cfg())
    requires s == Apply(states[i], Ops()[i], Cfg())
    ensures IsRun(states + [s], Ops()[..i + 1], Cfg())
  {
    ExtendRun(states, Ops()[..i], Cfg(), Ops()[i]);
    assert Ops()[..i + 1] == Ops()[..i] + [Ops()[i]];
  }

  lemma CreateRun(before: seq<State>, i: nat) returns (states: seq<State>)
    requires i < |Ops()| && Ops()[i] == OpCreateSandbox("s", "b", 1)
    requires IsRun(before, Ops()[..i], Cfg()) && before[i] == Initial()
    ensures IsRun(states, Ops()[..i + 1], Cfg()) && Idle(states[i + 1])
  {
    var s := Apply(before[i], Ops()[i], Cfg());
    CreateStep();
    Continue(before, i, s);
    states := before + [s];
  }

  lemma EnqueueRun(before: seq<State>, i: nat) returns (states: seq<State>)
    requires i < |Ops()| && Ops()[i] == OpCreateExecution(K, Batch, 1)
    requires IsRun(before, Ops()[..i], Cfg()) && Idle(before[i])
    ensures IsRun(states, Ops()[..i + 1], Cfg()) && Waiting(states[i + 1])
  {
    var s := Apply(before[i], Ops()[i], Cfg());
    EnqueueStep(before[i]);
    Continue(before, i, s);
    states := before + [s];
  }

  lemma WatchRun(before: seq<State>, i: nat) returns (states: seq<State>)
    requires i < |Ops()| && Ops()[i] == OpWatch(0, T, Follow)
    requires IsRun(before, Ops()[..i], Cfg()) && Waiting(before[i])
    ensures IsRun(states, Ops()[..i + 1], Cfg()) && Watched(states[i + 1])
  {
    var s := Apply(before[i], Ops()[i], Cfg());
    WatchStep(before[i]);
    Continue(before, i, s);
    states := before + [s];
  }

  lemma BeginRunning(before: seq<State>, i: nat) returns (states: seq<State>)
    requires i < |Ops()| && Ops()[i] == OpBeginRun(K, 2)
    requires IsRun(before, Ops()[..i], Cfg()) && Watched(before[i])
    ensures IsRun(states, Ops()[..i + 1], Cfg()) && Underway(states[i + 1])
  {
    var s := Apply(before[i], Ops()[i], Cfg());
    BeginStep(before[i]);
    Continue(before, i, s);
    states := before + [s];
  }

  lemma FinishRunning(before: seq<State>, i: nat) returns (states: seq<State>)
    requires i < |Ops()| && Ops()[i] == OpFinishRun(K, RunOk(0, "", "", ""), true, 3)
    requires IsRun(before, Ops()[..i], Cfg()) && Underway(before[i])
    ensures IsRun(states, Ops()[..i + 1], Cfg()) && At(states[i + 1], Full(), Stream(History(0), []))
  {
    var s := Apply(before[i], Ops()[i], Cfg());
    FinishStep(before[i]);
    Continue(before, i, s);
    states := before + [s];
  }

  // ---- The stream ----

  lemma MoveRun(before: seq<State>, i: nat, m: FollowMove, l: Log<Event>,
                f: Follower<Event>) returns (states: seq<State>)
    requires 5 <= i < |Ops()| && Ops()[i] == OpMove(0, m)
    requires IsRun(before, Ops()[..i], Cfg()) && At(before[i], l, f) && f.sub in l.chans
    requires (m.NextHistory? && f.pc.History?) || (m.TakeEvent? && CanTake(l, f)) || (m.SeeClosed? && SeesClosed(l, f))
    ensures IsRun(states, Ops()[..i + 1], Cfg())
    ensures At(states[i + 1], if m.TakeEvent? then Receive(l, f.sub) else l, Moved(l, f, m))
  {
    var s := Apply(before[i], Ops()[i], Cfg());
    Continue(before, i, s);
    states := before + [s];
  }

  lemma TakeEmpties()
    ensures Receive(Full(), 0) == Dry()
  {
    assert Receive(Full(), 0).chans == map[0 := Chan(0, [QUEUED], [] + [STARTED], [STARTED][1..], Overflowed, 1, 0)];
    assert [] + [STARTED] == [STARTED] && [STARTED][1..] == [];
  }

  lemma RunToTheEnd() returns (states: seq<State>)
    ensures IsRun(states, Ops()[..5], Cfg()) && At(states[5], Full(), Stream(History(0), []))
  {
    EmptyRun(Cfg());
    assert Ops()[..0] == [];
    states := CreateRun([Initial()], 0);
    states := EnqueueRun(states, 1);
    states := WatchRun(states, 2);
    states := BeginRunning(states, 3);
    states := FinishRunning(states, 4);
  }

  lemma RunThroughHistory() returns (states: seq<State>)
    ensures IsRun(states, Ops()[..7], Cfg()) && At(states[7], Full(), Stream(Following, [QUEUED]))
  {
    states := RunToTheEnd();
    states := MoveRun(states, 5, NextHistory, Full(), Stream(History(0), []));
    assert Moved(Full(), Stream(History(0), []), NextHistory) == Stream(History(1), [QUEUED]);
    states := MoveRun(states, 6, NextHistory, Full(), Stream(History(1), [QUEUED]));
  }

  /** In this run of nine steps the stream has returned nil, yet the exit event, which ends the trace, was never
      sent. */
  lemma NilReturnCanMissTheExit() returns (states: seq<State>)
    ensures IsRun(states, Ops(), Cfg()) && IsExit(EXIT)
    ensures At(states[9], Feed([QUEUED, STARTED, EXIT], [STARTED], [], false),
               Stream(Returned(Finished), [QUEUED, STARTED]))
  {
    states := RunThroughHistory();
    states := MoveRun(states, 7, TakeEvent, Full(), Stream(Following, [QUEUED]));
    TakeEmpties();
    assert Moved(Full(), Stream(Following, [QUEUED]), TakeEvent) == Stream(Following, [QUEUED, STARTED]);
    states := MoveRun(states, 8, SeeClosed, Dry(), Stream(Following, [QUEUED, STARTED]));
    assert Ops()[..9] == Ops();
  }
}

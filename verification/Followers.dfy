/** The consumers of an event feed: StreamExecution / StreamSandboxEvents of the control server and the
    event loop of the interactive QUIC bridge. Each is a goroutine whose steps interleave with the feed's. */
module Followers {
  import opened EventLog

  /** Stream without follow, stream with follow, interactive bridge. */
  datatype Mode = SnapshotOnly | Follow | Bridge

  /** How a consumer returned: nil error, the "could not keep up" error, the bridge after forwarding an
      exit, the bridge without one, or given up early (context, send or control-stream error). */
  datatype Outcome = Finished | SlowConsumer | Exited | Silent | Abandoned

  datatype Pc = History(next: nat) | Following | Draining | Returned(outcome: Outcome)

  datatype Follower<E> = Follower(mode: Mode, sub: nat, pc: Pc, sent: seq<E>)

  function Start<E>(l: Log<E>, mode: Mode): Follower<E> {
    Follower(mode, l.nextSub, History(0), [])
  }

  /** Pass one event on; the bridge stops at the first exit event. */
  function Forward<E>(f: Follower<E>, e: E, next: Pc, isExit: E -> bool): Follower<E> {
    f.(sent := f.sent + [e],
       pc := if f.mode.Bridge? && isExit(e) then Returned(Exited) else next)
  }

  function HistoryStep<E>(f: Follower<E>, c: Chan<E>, isExit: E -> bool): Follower<E>
    requires f.pc.History?
  {
    if f.pc.next < |c.snapshot| then
      Forward(f, c.snapshot[f.pc.next], History(f.pc.next + 1), isExit)
    else
      f.(pc := if f.mode.SnapshotOnly? then Returned(Finished) else Following)
  }

  predicate CanTake<E>(l: Log<E>, f: Follower<E>) {
    (f.pc.Following? || f.pc.Draining?) && f.sub in l.chans && l.chans[f.sub].buffer != []
  }

  function TakeStep<E>(l: Log<E>, f: Follower<E>, isExit: E -> bool): Follower<E>
    requires CanTake(l, f)
  {
    Forward(f, l.chans[f.sub].buffer[0], f.pc, isExit)
  }

  predicate SeesClosed<E>(l: Log<E>, f: Follower<E>) {
    f.pc.Following? && f.sub in l.chans && l.chans[f.sub].buffer == [] && l.chans[f.sub].closes > 0
  }

  /** The receive reports a closed channel: the stream asks whether done is closed, the bridge just returns. */
  function ClosedStep<E>(l: Log<E>, f: Follower<E>): Follower<E> {
    f.(pc := Returned(if f.mode.Bridge? then Silent else if l.doneClosed then Finished else SlowConsumer))
  }

  function DoneStep<E>(f: Follower<E>): Follower<E> {
    f.(pc := Draining)
  }

  predicate DrainedDry<E>(l: Log<E>, f: Follower<E>) {
    f.pc.Draining? && f.sub in l.chans && l.chans[f.sub].buffer == []
  }

  function DrainedStep<E>(f: Follower<E>): Follower<E> {
    f.(pc := Returned(if f.mode.Bridge? then Silent else Finished))
  }

  // ---- What every consumer keeps ----

  ghost predicate CaughtUp<E>(l: Log<E>, c: Chan<E>, sent: seq<E>) {
    && l.doneClosed && c.buffer == [] && sent == c.snapshot + c.received
    && (c.reason.Overflowed? || c.from + |c.Content()| == |l.trace|)
  }

  ghost predicate FollowerOk<E>(l: Log<E>, f: Follower<E>, isExit: E -> bool) {
    && f.sub in l.chans
    && var c := l.chans[f.sub];
    && (!f.pc.Returned? ==> !c.reason.Unsubscribed?)
    && c.from + |f.sent| <= |l.trace| && f.sent == l.trace[c.from..c.from + |f.sent|]
    && (f.mode.Bridge? ==> forall i :: 0 <= i < |f.sent| && isExit(f.sent[i]) ==>
        f.pc == Returned(Exited) && i == |f.sent| - 1)
    && match f.pc
       case History(n) => n <= |c.snapshot| && f.sent == c.snapshot[..n] && c.received == []
       case Following => f.sent == c.snapshot + c.received && !f.mode.SnapshotOnly?
       case Draining => f.sent == c.snapshot + c.received && !f.mode.SnapshotOnly? && l.doneClosed
       case Returned(Finished) =>
         && !f.mode.Bridge?
         && (if f.mode.SnapshotOnly? then f.sent == c.snapshot else CaughtUp(l, c, f.sent))
       case Returned(SlowConsumer) => f.mode.Follow? && c.reason.Overflowed?
       case Returned(Exited) => f.mode.Bridge? && f.sent != [] && isExit(f.sent[|f.sent| - 1])
       case Returned(Silent) => f.mode.Bridge? && (c.reason.Overflowed? || CaughtUp(l, c, f.sent))
       case Returned(Abandoned) => true
  }

  lemma StartOk<E>(l: Log<E>, b: Bounds, mode: Mode, isExit: E -> bool)
    requires LogOk(l, b)
    ensures FollowerOk(Subscribe(l), Start(l, mode), isExit)
  {
    NewChanOk(l, b.limit);
  }

  /** A consumer's claims survive whatever everybody else does to the feed. */
  lemma EnvKeepsFollower<E>(l: Log<E>, l': Log<E>, b: Bounds, f: Follower<E>, isExit: E -> bool)
    requires LogOk(l, b) && LogOk(l', b) && FollowerOk(l, f, isExit) && Env(l, l', f.sub)
    requires !f.pc.Returned? ==> !l'.chans[f.sub].reason.Unsubscribed?
    ensures FollowerOk(l', f, isExit)
  {
    var c, c' := l.chans[f.sub], l'.chans[f.sub];
    assert ChanOk(c, l.trace, f.sub in l.subs, l.doneClosed);
    assert ChanOk(c', l'.trace, f.sub in l'.subs, l'.doneClosed);
    assert l'.trace[c.from..c.from + |f.sent|] == l.trace[c.from..c.from + |f.sent|];
  }

  lemma ForwardOk<E>(l: Log<E>, l': Log<E>, f: Follower<E>, e: E, next: Pc, isExit: E -> bool)
    requires FollowerOk(l, f, isExit) && !f.pc.Returned? && !next.Returned?
    requires f.sub in l'.chans && l'.trace == l.trace && l'.doneClosed == l.doneClosed
    requires var c, c' := l.chans[f.sub], l'.chans[f.sub];
             && c'.from == c.from && !c'.reason.Unsubscribed?
             && c.from + |f.sent| < |l.trace| && l.trace[c.from + |f.sent|] == e
             && match next
                case History(n) => n <= |c'.snapshot| && f.sent + [e] == c'.snapshot[..n] && c'.received == []
                case Following => f.sent + [e] == c'.snapshot + c'.received && !f.mode.SnapshotOnly?
                case Draining => f.sent + [e] == c'.snapshot + c'.received && !f.mode.SnapshotOnly? && l.doneClosed
    ensures FollowerOk(l', Forward(f, e, next, isExit), isExit)
  {
    var c := l.chans[f.sub];
    assert l.trace[c.from..c.from + |f.sent| + 1] == l.trace[c.from..c.from + |f.sent|] + [e];
  }

  lemma HistoryStepOk<E>(l: Log<E>, b: Bounds, f: Follower<E>, isExit: E -> bool)
    requires LogOk(l, b) && FollowerOk(l, f, isExit) && f.pc.History?
    ensures FollowerOk(l, HistoryStep(f, l.chans[f.sub], isExit), isExit)
  {
    var c, n := l.chans[f.sub], f.pc.next;
    assert ChanOk(c, l.trace, f.sub in l.subs, l.doneClosed);
    if n < |c.snapshot| {
      assert c.Content()[n] == c.snapshot[n] && c.Content()[n] == l.trace[c.from + n];
      assert c.snapshot[..n + 1] == c.snapshot[..n] + [c.snapshot[n]];
      ForwardOk(l, l, f, c.snapshot[n], History(n + 1), isExit);
    } else {
      assert c.snapshot[..n] == c.snapshot == c.snapshot + c.received;
    }
  }

  lemma TakeStepOk<E>(l: Log<E>, b: Bounds, f: Follower<E>, isExit: E -> bool)
    requires LogOk(l, b) && FollowerOk(l, f, isExit) && CanTake(l, f)
    ensures FollowerOk(Receive(l, f.sub), TakeStep(l, f, isExit), isExit)
  {
    var l', c := Receive(l, f.sub), l.chans[f.sub];
    assert ChanOk(c, l.trace, f.sub in l.subs, l.doneClosed);
    var n := |f.sent|;
    assert c.Content()[n] == c.buffer[0] && c.Content()[n] == l.trace[c.from + n];
    assert f.sent + [c.buffer[0]] == c.snapshot + (c.received + [c.buffer[0]]);
    ForwardOk(l, l', f, c.buffer[0], f.pc, isExit);
  }

  lemma ClosedStepOk<E>(l: Log<E>, b: Bounds, f: Follower<E>, isExit: E -> bool)
    requires LogOk(l, b) && FollowerOk(l, f, isExit) && SeesClosed(l, f)
    ensures FollowerOk(l, ClosedStep(l, f), isExit)
  {
    assert ChanOk(l.chans[f.sub], l.trace, f.sub in l.subs, l.doneClosed);
  }

  lemma DrainedStepOk<E>(l: Log<E>, b: Bounds, f: Follower<E>, isExit: E -> bool)
    requires LogOk(l, b) && FollowerOk(l, f, isExit) && DrainedDry(l, f)
    ensures FollowerOk(l, DrainedStep(f), isExit)
  {
    assert ChanOk(l.chans[f.sub], l.trace, f.sub in l.subs, l.doneClosed);
  }

  // ---- Results ----

  /** What a follower passed on is always a gap-free, duplicate-free stretch of the full trace, starting
      where its history snapshot starts; what it was given and can still take is such a stretch too. */
  lemma DeliveryIsContiguous<E>(l: Log<E>, b: Bounds, f: Follower<E>, isExit: E -> bool)
    requires LogOk(l, b) && FollowerOk(l, f, isExit)
    ensures var c := l.chans[f.sub];
            && c.from + |c.Content()| <= |l.trace|
            && c.Content() == l.trace[c.from..c.from + |c.Content()|]
            && f.sent == l.trace[c.from..c.from + |f.sent|]
            && (f.pc.Following? || f.pc.Draining? ==> c.Content() == f.sent + c.buffer)
  {
    assert ChanOk(l.chans[f.sub], l.trace, f.sub in l.subs, l.doneClosed);
  }

  /** A following stream that returns nil sent everything to the end of the trace exactly when its
      channel never overflowed. */
  lemma FinishedIsCompleteIffNoOverflow<E>(l: Log<E>, b: Bounds, f: Follower<E>, isExit: E -> bool)
    requires LogOk(l, b) && FollowerOk(l, f, isExit)
    requires f.mode.Follow? && f.pc == Returned(Finished)
    ensures var c := l.chans[f.sub];
            l.doneClosed && (f.sent == l.trace[c.from..] <==> !c.reason.Overflowed?)
  {
    var c := l.chans[f.sub];
    assert ChanOk(c, l.trace, f.sub in l.subs, l.doneClosed);
    assert c.Content() == f.sent;
  }

  /** On a feed whose only exit event is the last one of a finished trace, a bridge that forwarded an exit
      forwarded everything, and one that returned without an exit had its channel overflow or was given nothing
      because it joined after the end. */
  lemma BridgeEndsAtExit<E>(l: Log<E>, b: Bounds, f: Follower<E>, isExit: E -> bool)
    requires LogOk(l, b) && FollowerOk(l, f, isExit) && f.mode.Bridge?
    requires forall i :: 0 <= i < |l.trace| && isExit(l.trace[i]) ==> l.doneClosed && i == |l.trace| - 1
    requires l.doneClosed ==> l.trace != [] && isExit(l.trace[|l.trace| - 1])
    ensures l.chans[f.sub].from <= |l.trace|
    ensures f.pc == Returned(Exited) ==>
              l.chans[f.sub].from < |l.trace| && f.sent == l.trace[l.chans[f.sub].from..]
    ensures f.pc == Returned(Silent) ==>
              l.chans[f.sub].reason.Overflowed? || (l.chans[f.sub].from == |l.trace| && l.doneClosed && f.sent == [])
  {
    var c := l.chans[f.sub];
    if f.pc == Returned(Exited) {
      assert isExit(l.trace[c.from + |f.sent| - 1]);
    }
    if f.pc == Returned(Silent) && CaughtUp(l, c, f.sent) {
      assert c.Content() == f.sent;
    }
  }
}

/** One event feed of the control service (an execution's or a sandbox's) with its subscriber channels. */
module EventLog {
  import opened Seqs

  /** Why a subscriber channel stopped being fed. */
  datatype CloseReason = StillOpen | Overflowed | Unsubscribed | Dropped | BornClosed

  /** A buffered Go channel handed to one subscriber. `from`, `snapshot` and `received` record what the
      subscriber got: the history copied at subscription time (starting at trace position `from`) and
      the events it has taken out so far. `closes` and `lateSends` count what would make Go panic. */
  datatype Chan<E> = Chan(
    from: nat,
    snapshot: seq<E>,
    received: seq<E>,
    buffer: seq<E>,
    reason: CloseReason,
    closes: nat,
    lateSends: nat)
  {
    function Close(why: CloseReason): Chan<E> {
      this.(closes := closes + 1, reason := if closes == 0 then why else reason)
    }

    function Send(e: E): Chan<E> {
      this.(buffer := buffer + [e], lateSends := if closes == 0 then lateSends else lateSends + 1)
    }

    /** Everything this subscriber was given or can still take. */
    function Content(): seq<E> {
      snapshot + received + buffer
    }
  }

  /** `trace` is the full event sequence (kept for specification), `history` the bounded copy the
      service retains, `subs` the registered subscriber numbers. Channels outlive registration. */
  datatype Log<E> = Log(
    trace: seq<E>,
    history: seq<E>,
    chans: map<nat, Chan<E>>,
    subs: set<nat>,
    nextSub: nat,
    doneClosed: bool,
    doneCloses: nat)

  /** History limit and channel capacity of a feed. */
  datatype Bounds = Bounds(limit: int, capacity: nat)

  function EmptyLog<E>(): Log<E> {
    Log([], [], map[], {}, 0, false, 0)
  }

  function AppendBounded<E>(history: seq<E>, item: E, limit: int): seq<E> {
    if limit <= 0 then []
    else
      var h := history + [item];
      if |h| <= limit then h else h[|h| - limit..]
  }

  /** Non-blocking send to a registered subscriber, or close when its buffer is full. */
  function Offer<E>(c: Chan<E>, e: E, capacity: nat): Chan<E> {
    if |c.buffer| < capacity then c.Send(e) else c.Close(Overflowed)
  }

  function Record<E>(l: Log<E>, e: E, b: Bounds): Log<E> {
    l.(trace := l.trace + [e],
       history := AppendBounded(l.history, e, b.limit),
       chans := map i | i in l.chans :: if i in l.subs then Offer(l.chans[i], e, b.capacity) else l.chans[i],
       subs := set i | i in l.subs && (i in l.chans ==> |l.chans[i].buffer| < b.capacity))
  }

  function NewChan<E>(l: Log<E>): Chan<E> {
    var c := Chan(if |l.history| <= |l.trace| then |l.trace| - |l.history| else 0, l.history, [], [], StillOpen, 0, 0);
    if l.doneClosed then c.Close(BornClosed) else c
  }

  function Subscribe<E>(l: Log<E>): Log<E> {
    l.(chans := l.chans[l.nextSub := NewChan(l)],
       subs := if l.doneClosed then l.subs else l.subs + {l.nextSub},
       nextSub := l.nextSub + 1)
  }

  function Unsubscribe<E>(l: Log<E>, id: nat): Log<E> {
    if id in l.subs && id in l.chans then
      l.(chans := l.chans[id := l.chans[id].Close(Unsubscribed)], subs := l.subs - {id})
    else
      l
  }

  function CloseDone<E>(l: Log<E>): Log<E> {
    if l.doneClosed then l else l.(doneClosed := true, doneCloses := l.doneCloses + 1)
  }

  function CloseSubscribers<E>(l: Log<E>): Log<E> {
    l.(chans := map i | i in l.chans :: if i in l.subs then l.chans[i].Close(Dropped) else l.chans[i],
       subs := {})
  }

  /** The feed's owner is removed from the service's maps. */
  function Drop<E>(l: Log<E>): Log<E> {
    CloseDone(CloseSubscribers(l))
  }

  /** The subscriber takes the oldest buffered event. */
  function Receive<E>(l: Log<E>, id: nat): Log<E>
    requires id in l.chans && l.chans[id].buffer != []
  {
    var c := l.chans[id];
    l.(chans := l.chans[id := c.(received := c.received + [c.buffer[0]], buffer := c.buffer[1..])])
  }

  /** The part of the trace a subscriber is entitled to: from the start of its history snapshot on. */
  function Since<E>(l: Log<E>, sub: nat): seq<E>
    requires sub in l.chans
  {
    if l.chans[sub].from <= |l.trace| then l.trace[l.chans[sub].from..] else []
  }

  /** The subscriber is entitled to something. */
  predicate StartsInside<E>(l: Log<E>, sub: nat)
    requires sub in l.chans
  {
    l.chans[sub].from < |l.trace|
  }

  // ---- What every feed keeps ----

  ghost predicate ChanOk<E>(c: Chan<E>, trace: seq<E>, registered: bool, done: bool) {
    && c.from + |c.Content()| <= |trace|
    && c.Content() == trace[c.from..c.from + |c.Content()|]
    && (registered <==> c.closes == 0)
    && (registered <==> c.reason.StillOpen?)
    && c.closes <= 1 && c.lateSends == 0
    && (registered ==> c.from + |c.Content()| == |trace|)
    && (c.reason.Dropped? || c.reason.BornClosed? ==> done && c.from + |c.Content()| == |trace|)
    && (c.reason.Overflowed? ==> c.from + |c.Content()| < |trace|)
  }

  ghost predicate LogOk<E>(l: Log<E>, b: Bounds) {
    && l.history == TakeLast(l.trace, b.limit)
    && l.subs <= l.chans.Keys
    && (forall i :: i in l.chans ==> i < l.nextSub)
    && (forall i :: i in l.chans ==> ChanOk(l.chans[i], l.trace, i in l.subs, l.doneClosed))
    && (forall i :: i in l.chans && b.limit > 0 && l.chans[i].snapshot == [] ==> l.chans[i].from == 0)
    && l.doneCloses == (if l.doneClosed then 1 else 0)
  }

  lemma {:induction false} RecordOk<E>(l: Log<E>, e: E, b: Bounds)
    requires LogOk(l, b) && !l.doneClosed
    ensures LogOk(Record(l, e, b), b)
  {
    var l' := Record(l, e, b);
    TakeLastAppend(l.trace, [e], b.limit);
    forall i | i in l'.chans
      ensures ChanOk(l'.chans[i], l'.trace, i in l'.subs, l'.doneClosed)
    {
      OfferOk(l.chans[i], l.trace, i in l.subs, e, b.capacity);
    }
  }

  lemma OfferOk<E>(c: Chan<E>, trace: seq<E>, registered: bool, e: E, capacity: nat)
    requires ChanOk(c, trace, registered, false)
    ensures var c' := if registered then Offer(c, e, capacity) else c;
            ChanOk(c', trace + [e], registered && |c.buffer| < capacity, false)
  {
    var c' := if registered then Offer(c, e, capacity) else c;
    var to := c.from + |c.Content()|;
    assert (trace + [e])[c.from..to] == trace[c.from..to];
    if registered && |c.buffer| < capacity {
      assert c'.Content() == c.Content() + [e];
      assert (trace + [e])[c.from..to + 1] == trace[c.from..to] + [e];
    }
  }

  lemma NewChanOk<E>(l: Log<E>, limit: int)
    requires l.history == TakeLast(l.trace, limit)
    ensures ChanOk(NewChan(l), l.trace, !l.doneClosed, l.doneClosed)
  {
    var c, n := NewChan(l), |l.trace|;
    assert c.Content() == l.history;
    assert c.from + |l.history| == n;
    assert l.trace[c.from..n] == l.history;
  }

  lemma SubscribeOk<E>(l: Log<E>, b: Bounds)
    requires LogOk(l, b)
    ensures LogOk(Subscribe(l), b)
  {
    var l' := Subscribe(l);
    forall i | i in l'.chans
      ensures i < l'.nextSub && ChanOk(l'.chans[i], l'.trace, i in l'.subs, l'.doneClosed)
    {
      if i == l.nextSub {
        NewChanOk(l, b.limit);
      } else {
        assert ChanOk(l.chans[i], l.trace, i in l.subs, l.doneClosed);
      }
    }
  }

  lemma UnsubscribeOk<E>(l: Log<E>, id: nat, b: Bounds)
    requires LogOk(l, b)
    ensures LogOk(Unsubscribe(l, id), b)
  {
    if id in l.subs && id in l.chans {
      var l' := Unsubscribe(l, id);
      forall i | i in l'.chans ensures ChanOk(l'.chans[i], l'.trace, i in l'.subs, l'.doneClosed) {
        assert ChanOk(l.chans[i], l.trace, i in l.subs, l.doneClosed);
        assert l'.chans[i].Content() == l.chans[i].Content();
      }
    }
  }

  lemma CloseDoneOk<E>(l: Log<E>, b: Bounds)
    requires LogOk(l, b)
    ensures LogOk(CloseDone(l), b)
  {
  }

  lemma {:induction false} DropOk<E>(l: Log<E>, b: Bounds)
    requires LogOk(l, b)
    ensures LogOk(Drop(l), b)
  {
    var l' := Drop(l);
    forall i | i in l'.chans ensures ChanOk(l'.chans[i], l'.trace, false, true) {
      assert ChanOk(l.chans[i], l.trace, i in l.subs, l.doneClosed);
      DroppedChanOk(l.chans[i], l.trace, i in l.subs, l.doneClosed);
    }
  }

  lemma DroppedChanOk<E>(c: Chan<E>, trace: seq<E>, registered: bool, done: bool)
    requires ChanOk(c, trace, registered, done)
    ensures ChanOk(if registered then c.Close(Dropped) else c, trace, false, true)
  {
    assert c.Close(Dropped).Content() == c.Content();
  }

  lemma ReceiveOk<E>(l: Log<E>, id: nat, b: Bounds)
    requires LogOk(l, b) && id in l.chans && l.chans[id].buffer != []
    ensures LogOk(Receive(l, id), b)
  {
    var l' := Receive(l, id);
    assert ChanOk(l.chans[id], l.trace, id in l.subs, l.doneClosed);
    TakenOk(l.chans[id], l.trace, id in l.subs, l.doneClosed);
    forall i | i in l'.chans ensures ChanOk(l'.chans[i], l'.trace, i in l'.subs, l'.doneClosed) {
      assert i != id ==> ChanOk(l.chans[i], l.trace, i in l.subs, l.doneClosed);
    }
  }

  lemma TakenOk<E>(c: Chan<E>, trace: seq<E>, registered: bool, done: bool)
    requires ChanOk(c, trace, registered, done) && c.buffer != []
    ensures ChanOk(c.(received := c.received + [c.buffer[0]], buffer := c.buffer[1..]), trace, registered, done)
  {
    var c' := c.(received := c.received + [c.buffer[0]], buffer := c.buffer[1..]);
    assert c.buffer == [c.buffer[0]] + c.buffer[1..];
    assert c'.Content() == c.Content();
  }

  // ---- The steps other goroutines take on a feed, seen from subscriber `me` ----

  /** `l'` is `l` after some other party's steps: the trace only grows, and not once done is closed;
      channel `me` keeps what it was given, may be fed, and is closed only for a recorded reason. */
  ghost predicate Env<E>(l: Log<E>, l': Log<E>, me: nat) {
    && l.trace <= l'.trace
    && (l.doneClosed ==> l'.doneClosed && l'.trace == l.trace)
    && me in l.chans && me in l'.chans
    && var c, c' := l.chans[me], l'.chans[me];
    && c'.from == c.from && c'.snapshot == c.snapshot && c'.received == c.received
    && c.buffer <= c'.buffer
    && (l.doneClosed ==> c'.buffer == c.buffer)
    && (c.closes > 0 ==> c' == c)
  }

  lemma EnvRefl<E>(l: Log<E>, me: nat)
    requires me in l.chans
    ensures Env(l, l, me)
  {
  }

  lemma RecordEnv<E>(l: Log<E>, e: E, b: Bounds, me: nat)
    requires LogOk(l, b) && !l.doneClosed && me in l.chans
    ensures Env(l, Record(l, e, b), me)
  {
    assert ChanOk(l.chans[me], l.trace, me in l.subs, l.doneClosed);
  }

  lemma DropEnv<E>(l: Log<E>, b: Bounds, me: nat)
    requires LogOk(l, b) && me in l.chans
    ensures Env(l, Drop(l), me)
  {
    assert ChanOk(l.chans[me], l.trace, me in l.subs, l.doneClosed);
  }

  lemma SubscribeEnv<E>(l: Log<E>, b: Bounds, me: nat)
    requires LogOk(l, b) && me in l.chans
    ensures Env(l, Subscribe(l), me)
  {
  }

  lemma OtherConsumerEnv<E>(l: Log<E>, l': Log<E>, other: nat, me: nat)
    requires me in l.chans && other != me
    requires l' == Unsubscribe(l, other) || (other in l.chans && l.chans[other].buffer != [] && l' == Receive(l, other))
    ensures Env(l, l', me)
  {
  }
}

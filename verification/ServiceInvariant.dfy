/** What every reachable state of the control service satisfies, stated key by key. */
module ServiceInvariant {
  import opened Seqs
  import opened EventLog
  import opened Followers
  import opened ServiceModel

  function Get<K, V>(m: map<K, V>, k: K): Option<V> {
    if k in m then Some(m[k]) else None
  }

  // ---- Output carried by a trace ----

  function ChunkOf(e: Event, isStdout: bool): string {
    if e.ExecEvent? && isStdout && e.payload.Stdout? then e.payload.data
    else if e.ExecEvent? && !isStdout && e.payload.Stderr? then e.payload.data
    else ""
  }

  /** All stdout (or stderr) payloads of a trace, in order. */
  function TextOf(trace: seq<Event>, isStdout: bool): string {
    if trace == [] then "" else TextOf(trace[..|trace| - 1], isStdout) + ChunkOf(trace[|trace| - 1], isStdout)
  }

  lemma TextOfSnoc(trace: seq<Event>, e: Event, isStdout: bool)
    ensures TextOf(trace + [e], isStdout) == TextOf(trace, isStdout) + ChunkOf(e, isStdout)
  {
    assert (trace + [e])[..|trace|] == trace;
  }

  // ---- One execution ----

  /** An execution's trace is never empty and has an exit event exactly at its end exactly when it is done. */
  ghost predicate TraceOk(trace: seq<Event>, done: bool) {
    && trace != []
    && (forall i :: 0 <= i < |trace| ==> trace[i].ExecEvent?)
    && (forall i :: 0 <= i < |trace| && IsExit(trace[i]) ==> done && i == |trace| - 1)
    && (done ==> IsExit(trace[|trace| - 1]))
  }

  ghost predicate ExecFeedOk(l: Log<Event>, e: Option<Execution>, limit: int) {
    && TraceOk(l.trace, l.doneClosed)
    && (l.doneClosed <==> e.None? || Final(e.value.status))
    && (e.Some? && Final(e.value.status) ==>
          var exit := l.trace[|l.trace| - 1].payload; exit.code == e.value.exitCode && exit.status == e.value.status)
    && (e.Some? && !Final(e.value.status) ==>
          && e.value.stdout == TakeLast(TextOf(l.trace, true), limit)
          && e.value.stderr == TakeLast(TextOf(l.trace, false), limit))
    && (e.Some? && e.value.status.Queued? ==> TextOf(l.trace, true) == "" && TextOf(l.trace, false) == "")
  }

  ghost predicate ShapeOk(e: Execution) {
    && (e.status.Queued? ==> !e.hasCancel && !e.hasAttach && !e.cancelRequested)
    && (e.status.Running? ==> e.hasCancel)
    && (Final(e.status) ==> FinalShape(e))
  }

  ghost predicate FinalShape(e: Execution) {
    && !e.hasCancel && !e.hasAttach && e.finishedAt.Some?
    && (e.status.Canceled? <==> e.cancelRequested)
    && (e.status.Canceled? ==> e.exitCode == CancelExitCode(e.cancelSignal))
    && (e.status.Succeeded? ==> e.exitCode == 0)
    && !e.status.TimedOut?
  }

  /** The accepted cancellations: requested exactly when there was one, with the last one's signal. */
  ghost predicate SignalsOk(e: Execution, signals: seq<int>) {
    && (e.cancelRequested <==> signals != [])
    && (signals != [] ==> e.cancelSignal == signals[|signals| - 1])
  }

  /** The exit event tells of the accepted cancellations: CANCELED exactly when there was one, with the last one's
      code. */
  ghost predicate ExitFits(e: Event, signals: seq<int>) {
    && IsExit(e) && (e.payload.status.Canceled? <==> signals != [])
    && (signals != [] ==> e.payload.code == CancelExitCode(signals[|signals| - 1]))
    && (e.payload.status.Succeeded? ==> e.payload.code == 0)
    && !e.payload.status.TimedOut?
  }

  /** A live execution holds its sandbox: stored, named active, no download, backend known; and if the sandbox
      is no longer ready the execution is running and asked to cancel. */
  ghost predicate HoldsSandbox(k: Key, e: Execution, sb: Option<Sandbox>, cfg: Config) {
    && sb.Some? && sb.value.active == Some(k.exec) && !sb.value.download && sb.value.backend in cfg.backends
    && (!sb.value.status.Ready? ==> e.status.Running? && e.cancelRequested)
  }

  ghost predicate KeyOk(k: Key, e: Option<Execution>, feed: Option<Log<Event>>, sb: Option<Sandbox>, pc: Option<RunPc>,
                        signals: Option<seq<int>>, pending: bool, ctx: bool, held: bool, cfg: Config)
  {
    && (feed.None? ==> e.None? && pc.None? && signals.None? && !pending && !ctx && !held)
    && (feed.Some? ==> pc.Some? && signals.Some? && ExecFeedOk(feed.value, e, cfg.outputLimit)
                       && SlashFree(k.sandbox) && SlashFree(k.exec))
    && (feed.Some? && e.None? ==> ExitFits(feed.value.trace[|feed.value.trace| - 1], signals.value))
    && (pc == Some(InBackend) <==> e.Some? && e.value.status.Running?)
    && (e.Some? ==>
          && ShapeOk(e.value) && SignalsOk(e.value, signals.value)
          && (e.value.status.Queued? ==> pc == Some(Spawned))
          && (pending || ctx ==> e.value.cancelRequested)
          && (e.value.status.Running? && e.value.cancelRequested ==> pending || ctx)
          && (!Final(e.value.status) ==> HoldsSandbox(k, e.value, sb, cfg)))
  }

  ghost predicate KeyInv(s: State, k: Key, cfg: Config) {
    KeyOk(k, Get(s.executions, k), Get(s.feeds, OfExec(k)), Get(s.sandboxes, k.sandbox), Get(s.runners, k),
          Get(s.signals, k), k in s.cancels, k in s.ctxCanceled, k in s.handlers.Values, cfg)
  }

  // ---- One sandbox ----

  ghost predicate SandboxOk(id: Id, sb: Option<Sandbox>, feed: Option<Log<Event>>, downloads: nat, terminating: nat) {
    && (feed.None? ==> sb.None? && downloads == 0 && terminating == 0)
    && (feed.Some? ==> feed.value.trace != [] && SlashFree(id)
                       && (feed.value.doneClosed <==> sb.None? || sb.value.status.Stopped?))
    && downloads <= 1
    && (sb.Some? ==> (sb.value.download <==> downloads == 1))
    && (sb.Some? && terminating > 0 ==> !sb.value.status.Ready?)
  }

  ghost predicate SandboxInv(s: State, id: Id) {
    SandboxOk(id, Get(s.sandboxes, id), Get(s.feeds, OfSandbox(id)), s.downloads[id], s.terminating[id])
  }

  // ---- Interactive sessions ----

  /** Per execution at most one of: a pending session, an attachment; both only for stored, live, interactive
      executions; an attachment belongs to the one connection that consumed its session. */
  ghost predicate InteractiveOk(executions: map<Key, Execution>, sessions: map<Id, Session>, attached: set<Key>,
                                handlers: map<nat, Key>, issued: set<Id>, consumed: set<Id>)
  {
    && (forall i :: i in sessions ==>
          LiveInteractive(executions, sessions[i].key) && sessions[i].key !in attached && i in issued && i !in consumed)
    && (forall i, j :: i in sessions && j in sessions && sessions[i].key == sessions[j].key ==> i == j)
    && (forall k :: k in attached ==> LiveInteractive(executions, k) && k in handlers.Values)
    && (forall h :: h in handlers && LiveInteractive(executions, handlers[h]) ==> handlers[h] in attached)
    && (forall g, h :: g in handlers && h in handlers && handlers[g] == handlers[h] ==> g == h)
    && consumed <= issued
  }

  ghost predicate InteractiveInv(s: State) {
    InteractiveOk(s.executions, s.sessions, s.attached, s.handlers, s.issued, s.consumed)
  }

  // ---- Feeds and followers ----

  ghost predicate FeedOk(feeds: Feeds, t: Topic, cfg: Config) {
    t in feeds ==> LogOk(feeds[t], BoundsOf(t, cfg))
  }

  ghost predicate FeedsOk(feeds: Feeds, cfg: Config) {
    forall t :: FeedOk(feeds, t, cfg)
  }

  predicate SameChannel(v: Watch, w: Watch) {
    v.topic == w.topic && v.follower.sub == w.follower.sub
  }

  ghost predicate WatchOk(feeds: Feeds, watches: map<nat, Watch>, w: nat) {
    w in watches ==>
      && watches[w].topic in feeds && FollowerOk(feeds[watches[w].topic], watches[w].follower, IsExit)
      && (forall v :: v in watches && SameChannel(watches[v], watches[w]) ==> v == w)
  }

  ghost predicate WatchesOk(feeds: Feeds, watches: map<nat, Watch>) {
    forall w :: WatchOk(feeds, watches, w)
  }

  ghost predicate FeedsInv(s: State, cfg: Config) {
    FeedsOk(s.feeds, cfg) && WatchesOk(s.feeds, s.watches)
  }

  ghost predicate Inv(s: State, cfg: Config) {
    && (forall k :: KeyInv(s, k, cfg))
    && (forall id :: SandboxInv(s, id))
    && InteractiveInv(s)
    && FeedsInv(s, cfg)
  }

  /** Inv with the execution under `k` left out: the shape of a state in the middle of finishing `k`. */
  ghost predicate InvExcept(s: State, k: Key, cfg: Config) {
    && (forall k' :: k' != k ==> KeyInv(s, k', cfg))
    && (forall id :: SandboxInv(s, id))
    && InteractiveInv(s)
    && FeedsInv(s, cfg)
  }

  lemma InitialInv(cfg: Config)
    ensures Inv(Initial(), cfg)
  {
  }

  // ---- How feeds evolve ----

  /** A trace only grows, and not once done is closed. */
  ghost predicate Grows(l: Log<Event>, l': Log<Event>) {
    l.trace <= l'.trace && (l.doneClosed ==> l'.doneClosed && l'.trace == l.trace)
  }

  ghost predicate Evolves(l: Log<Event>, l': Log<Event>, b: Bounds) {
    && LogOk(l', b) && Grows(l, l')
    && (forall me :: me in l.chans ==>
          Env(l, l', me) && (l'.chans[me].reason.Unsubscribed? ==> l.chans[me].reason.Unsubscribed?))
  }

  ghost predicate FeedEvolves(feeds: Feeds, feeds': Feeds, t: Topic, cfg: Config) {
    t in feeds ==> t in feeds' && Evolves(feeds[t], feeds'[t], BoundsOf(t, cfg))
  }

  ghost predicate FeedsEvolve(feeds: Feeds, feeds': Feeds, cfg: Config) {
    && FeedsOk(feeds', cfg)
    && (forall t :: FeedEvolves(feeds, feeds', t, cfg))
  }

  lemma EvolvesRefl(l: Log<Event>, b: Bounds)
    requires LogOk(l, b)
    ensures Evolves(l, l, b)
  {
  }

  lemma EvolvesTrans(l1: Log<Event>, l2: Log<Event>, l3: Log<Event>, b: Bounds)
    requires Evolves(l1, l2, b) && Evolves(l2, l3, b)
    ensures Evolves(l1, l3, b)
  {
    forall me | me in l1.chans
      ensures Env(l1, l3, me) && (l3.chans[me].reason.Unsubscribed? ==> l1.chans[me].reason.Unsubscribed?)
    {
      assert Env(l1, l2, me);
      assert Env(l2, l3, me);
    }
  }

  lemma RecordEvolves(l: Log<Event>, e: Event, b: Bounds)
    requires LogOk(l, b) && !l.doneClosed
    ensures Evolves(l, Record(l, e, b), b)
  {
    RecordOk(l, e, b);
    forall me | me in l.chans
      ensures Env(l, Record(l, e, b), me)
      ensures Record(l, e, b).chans[me].reason.Unsubscribed? ==> l.chans[me].reason.Unsubscribed?
    {
      RecordEnv(l, e, b, me);
    }
  }

  lemma CloseDoneEvolves(l: Log<Event>, b: Bounds)
    requires LogOk(l, b)
    ensures Evolves(l, CloseDone(l), b)
  {
    CloseDoneOk(l, b);
  }

  lemma DropEvolves(l: Log<Event>, b: Bounds)
    requires LogOk(l, b)
    ensures Evolves(l, Drop(l), b)
  {
    DropOk(l, b);
    forall me | me in l.chans
      ensures Env(l, Drop(l), me)
      ensures Drop(l).chans[me].reason.Unsubscribed? ==> l.chans[me].reason.Unsubscribed?
    {
      DropEnv(l, b, me);
    }
  }

  lemma SubscribeEvolves(l: Log<Event>, b: Bounds)
    requires LogOk(l, b)
    ensures Evolves(l, Subscribe(l), b)
  {
    SubscribeOk(l, b);
    forall me | me in l.chans ensures Env(l, Subscribe(l), me) {
      SubscribeEnv(l, b, me);
    }
  }

  /** Followers keep their claims while other goroutines make the feeds evolve. */
  lemma EvolutionKeepsWatches(feeds: Feeds, feeds': Feeds, watches: map<nat, Watch>, cfg: Config)
    requires FeedsOk(feeds, cfg) && WatchesOk(feeds, watches) && FeedsEvolve(feeds, feeds', cfg)
    ensures WatchesOk(feeds', watches)
  {
    forall w ensures WatchOk(feeds', watches, w) {
      if w in watches {
        var t, f := watches[w].topic, watches[w].follower;
        assert WatchOk(feeds, watches, w);
        assert FeedOk(feeds, t, cfg) && FeedEvolves(feeds, feeds', t, cfg);
        assert Env(feeds[t], feeds'[t], f.sub);
        EnvKeepsFollower(feeds[t], feeds'[t], BoundsOf(t, cfg), f, IsExit);
      }
    }
  }

  /** Enough to show that feeds evolve: every old one does, every new one is in order. */
  lemma FeedsEvolveIf(feeds: Feeds, feeds': Feeds, cfg: Config)
    requires forall t :: FeedEvolves(feeds, feeds', t, cfg)
    requires forall t :: t !in feeds ==> FeedOk(feeds', t, cfg)
    ensures FeedsEvolve(feeds, feeds', cfg)
  {
    forall t ensures FeedOk(feeds', t, cfg) {
      assert FeedEvolves(feeds, feeds', t, cfg);
    }
  }

  lemma OneFeedEvolves(feeds: Feeds, t: Topic, l': Log<Event>, cfg: Config)
    requires FeedsOk(feeds, cfg) && t in feeds && Evolves(feeds[t], l', BoundsOf(t, cfg))
    ensures FeedsEvolve(feeds, feeds[t := l'], cfg)
  {
    var feeds' := feeds[t := l'];
    forall u ensures FeedEvolves(feeds, feeds', u, cfg) {
      assert FeedOk(feeds, u, cfg);
      if u != t && u in feeds {
        EvolvesRefl(feeds[u], BoundsOf(u, cfg));
      }
    }
    FeedsEvolveIf(feeds, feeds', cfg);
  }

  lemma NewFeedEvolves(feeds: Feeds, t: Topic, e: Event, cfg: Config)
    requires FeedsOk(feeds, cfg) && t !in feeds
    ensures FeedsEvolve(feeds, feeds[t := Record(EmptyLog(), e, BoundsOf(t, cfg))], cfg)
  {
    RecordOk(EmptyLog<Event>(), e, BoundsOf(t, cfg));
    var feeds' := feeds[t := Record(EmptyLog(), e, BoundsOf(t, cfg))];
    forall u ensures FeedEvolves(feeds, feeds', u, cfg) {
      assert FeedOk(feeds, u, cfg);
      if u in feeds {
        EvolvesRefl(feeds[u], BoundsOf(u, cfg));
      }
    }
    FeedsEvolveIf(feeds, feeds', cfg);
  }

  lemma DropFeedsEvolve(feeds: Feeds, gone: set<Topic>, cfg: Config)
    requires FeedsOk(feeds, cfg)
    ensures FeedsEvolve(feeds, DropFeeds(feeds, gone), cfg)
  {
    var feeds' := DropFeeds(feeds, gone);
    forall u ensures FeedEvolves(feeds, feeds', u, cfg) {
      assert FeedOk(feeds, u, cfg);
      if u in feeds && u in gone {
        DropEvolves(feeds[u], BoundsOf(u, cfg));
      } else if u in feeds {
        EvolvesRefl(feeds[u], BoundsOf(u, cfg));
      }
    }
    FeedsEvolveIf(feeds, feeds', cfg);
  }

  lemma FeedsEvolveTrans(a: Feeds, b: Feeds, c: Feeds, cfg: Config)
    requires FeedsEvolve(a, b, cfg) && FeedsEvolve(b, c, cfg)
    ensures FeedsEvolve(a, c, cfg)
  {
    forall t ensures FeedEvolves(a, c, t, cfg) {
      assert FeedEvolves(a, b, t, cfg) && FeedEvolves(b, c, t, cfg);
      if t in a {
        EvolvesTrans(a[t], b[t], c[t], BoundsOf(t, cfg));
      }
    }
  }

  lemma FeedsEvolveRefl(a: Feeds, cfg: Config)
    requires FeedsOk(a, cfg)
    ensures FeedsEvolve(a, a, cfg)
  {
    forall t ensures FeedEvolves(a, a, t, cfg) {
      assert FeedOk(a, t, cfg);
      if t in a {
        EvolvesRefl(a[t], BoundsOf(t, cfg));
      }
    }
  }
}

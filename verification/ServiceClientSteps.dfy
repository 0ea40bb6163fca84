/** Invariant preservation for interactive sessions and followers. */
module ServiceClientSteps {
  import opened EventLog
  import opened Followers
  import opened ServiceModel
  import opened ServiceInvariant

  /** Steps that change only sessions, attachments and connections. */
  ghost predicate OnlyInteractive(s: State, s': State) {
    s' == s.(sessions := s'.sessions, attached := s'.attached, handlers := s'.handlers, issued := s'.issued,
             consumed := s'.consumed)
  }

  lemma InteractiveStepInv(s: State, s': State, cfg: Config)
    requires Inv(s, cfg) && OnlyInteractive(s, s') && InteractiveInv(s')
    requires forall k :: k in s'.handlers.Values ==> k in s.handlers.Values || k in s.executions
    ensures Inv(s', cfg)
  {
    forall k ensures KeyInv(s', k, cfg) {
      assert KeyInv(s, k, cfg);
    }
    forall id ensures SandboxInv(s', id) {
      assert SandboxInv(s, id);
    }
  }

  lemma FewerSessionsOk(executions: map<Key, Execution>, sessions: map<Id, Session>, fewer: map<Id, Session>,
                        attached: set<Key>,
                        handlers: map<nat, Key>, issued: set<Id>, consumed: set<Id>)
    requires InteractiveOk(executions, sessions, attached, handlers, issued, consumed)
    requires forall i :: i in fewer ==> i in sessions && fewer[i] == sessions[i]
    ensures InteractiveOk(executions, fewer, attached, handlers, issued, consumed)
  {
  }

  lemma OneMoreSessionOk(executions: map<Key, Execution>, sessions: map<Id, Session>, id: Id, session: Session,
                         attached: set<Key>,
                         handlers: map<nat, Key>, issued: set<Id>, consumed: set<Id>)
    requires InteractiveOk(executions, sessions, attached, handlers, issued, consumed) && id !in issued
    requires LiveInteractive(executions, session.key) && session.key !in attached && !Pending(sessions, session.key)
    ensures InteractiveOk(executions, sessions[id := session], attached, handlers, issued + {id}, consumed)
  {
  }

  lemma OpenSessionInv(s: State, id: Id, k: Key, token: string, ttl: nat, now: nat, cfg: Config)
    requires Inv(s, cfg) && id !in s.issued
    ensures Inv(OpenSession(s, id, k, token, ttl, now, cfg), cfg)
  {
    var open := Unexpired(s.sessions, now);
    FewerSessionsOk(s.executions, s.sessions, open, s.attached, s.handlers, s.issued, s.consumed);
    if CanOpen(s, k, now, cfg) {
      OneMoreSessionOk(s.executions, open, id, Session(k, token, now + ttl), s.attached, s.handlers, s.issued,
                       s.consumed);
    }
    OpenSessionShape(s, id, k, token, ttl, now, cfg);
    InteractiveStepInv(s, OpenSession(s, id, k, token, ttl, now, cfg), cfg);
  }

  lemma OpenSessionShape(s: State, id: Id, k: Key, token: string, ttl: nat, now: nat, cfg: Config)
    ensures var s' := OpenSession(s, id, k, token, ttl, now, cfg);
            && OnlyInteractive(s, s') && s'.attached == s.attached && s'.handlers == s.handlers
            && s'.consumed == s.consumed
            && (if CanOpen(s, k, now, cfg) then
                  && s'.issued == s.issued + {id}
                  && s'.sessions == Unexpired(s.sessions, now)[id := Session(k, token, now + ttl)]
                else
                  s'.issued == s.issued && (s'.sessions == s.sessions || s'.sessions == Unexpired(s.sessions, now)))
  {
  }

  lemma ConsumedHandlers(handlers: map<nat, Key>, h: nat, k: Key)
    requires h !in handlers
    ensures handlers[h := k].Values == handlers.Values + {k}
  {
    var more := handlers[h := k];
    assert more[h] == k;
    forall v | v in handlers.Values ensures v in more.Values {
      var g :| g in handlers && handlers[g] == v;
      assert more[g] == v;
    }
  }

  lemma AttachOk(executions: map<Key, Execution>, sessions: map<Id, Session>, id: Id, attached: set<Key>,
                 handlers: map<nat, Key>, h: nat, issued: set<Id>, consumed: set<Id>)
    requires InteractiveOk(executions, sessions, attached, handlers, issued, consumed) && id in sessions
    requires h !in handlers
    ensures var k := sessions[id].key;
            InteractiveOk(executions, sessions - {id}, attached + {k}, handlers[h := k], issued, consumed + {id})
  {
    var k := sessions[id].key;
    ConsumedHandlers(handlers, h, k);
    assert forall g :: g in handlers ==> handlers[g] != k;
  }

  lemma ConsumeSessionShape(s: State, h: nat, id: Id, token: string, now: nat)
    ensures var s', open := ConsumeSession(s, h, id, token, now), Unexpired(s.sessions, now);
            && OnlyInteractive(s, s') && s'.issued == s.issued
            && (CanConsume(s, id, token, now) ==>
                  && s'.sessions == open - {id} && s'.attached == s.attached + {open[id].key}
                  && s'.handlers == s.handlers[h := open[id].key] && s'.consumed == s.consumed + {id})
            && (!CanConsume(s, id, token, now) ==>
                  && (s'.sessions == open || s'.sessions == open - {id}) && s'.attached == s.attached
                  && s'.handlers == s.handlers && s'.consumed == s.consumed)
  {
    if CanConsume(s, id, token, now) {
      ConsumedShape(s, h, id, token, now);
    } else {
      RefusedShape(s, h, id, token, now);
    }
  }

  lemma ConsumedShape(s: State, h: nat, id: Id, token: string, now: nat)
    requires CanConsume(s, id, token, now)
    ensures var s', open := ConsumeSession(s, h, id, token, now), Unexpired(s.sessions, now);
            s' == s.(sessions := open - {id}, attached := s.attached + {open[id].key},
                     handlers := s.handlers[h := open[id].key],
                     consumed := s.consumed + {id})
  {
  }

  lemma RefusedShape(s: State, h: nat, id: Id, token: string, now: nat)
    requires !CanConsume(s, id, token, now)
    ensures var s', open := ConsumeSession(s, h, id, token, now), Unexpired(s.sessions, now);
            s' == s.(sessions := s'.sessions) && (s'.sessions == open || s'.sessions == open - {id})
  {
  }

  lemma ConsumeSessionInv(s: State, h: nat, id: Id, token: string, now: nat, cfg: Config)
    requires Inv(s, cfg) && h !in s.handlers
    ensures Inv(ConsumeSession(s, h, id, token, now), cfg)
  {
    var s', open := ConsumeSession(s, h, id, token, now), Unexpired(s.sessions, now);
    FewerSessionsOk(s.executions, s.sessions, open, s.attached, s.handlers, s.issued, s.consumed);
    FewerSessionsOk(s.executions, s.sessions, open - {id}, s.attached, s.handlers, s.issued, s.consumed);
    ConsumeSessionShape(s, h, id, token, now);
    if CanConsume(s, id, token, now) {
      ConsumedHandlers(s.handlers, h, open[id].key);
      AttachOk(s.executions, open, id, s.attached, s.handlers, h, s.issued, s.consumed);
    }
    InteractiveStepInv(s, s', cfg);
  }

  lemma ReleaseSessionInv(s: State, h: nat, cfg: Config)
    requires Inv(s, cfg)
    ensures Inv(ReleaseSession(s, h), cfg)
  {
    var s' := ReleaseSession(s, h);
    if h in s.handlers {
      forall k | k in s.attached && k != s.handlers[h] ensures k in s'.handlers.Values {
        var g :| g in s.handlers && s.handlers[g] == k;
        assert s'.handlers[g] == k;
      }
    }
    InteractiveStepInv(s, s', cfg);
  }

  // ---- Followers ----

  /** Steps that change only followers and the channels of one feed. */
  lemma FeedStepInv(s: State, t: Topic, l: Log<Event>, watches: map<nat, Watch>, cfg: Config)
    requires Inv(s, cfg) && t in s.feeds
    requires l.trace == s.feeds[t].trace && l.doneClosed == s.feeds[t].doneClosed
    requires FeedsOk(s.feeds[t := l], cfg) && WatchesOk(s.feeds[t := l], watches)
    ensures Inv(s.(feeds := s.feeds[t := l], watches := watches), cfg)
  {
    var s' := s.(feeds := s.feeds[t := l], watches := watches);
    forall k ensures KeyInv(s', k, cfg) {
      assert KeyInv(s, k, cfg);
    }
    forall id ensures SandboxInv(s', id) {
      assert SandboxInv(s, id);
    }
  }

  lemma OneFeedOk(feeds: Feeds, t: Topic, l: Log<Event>, cfg: Config)
    requires FeedsOk(feeds, cfg) && LogOk(l, BoundsOf(t, cfg))
    ensures FeedsOk(feeds[t := l], cfg)
  {
    var feeds' := feeds[t := l];
    forall u ensures FeedOk(feeds', u, cfg) {
      assert FeedOk(feeds, u, cfg);
    }
  }

  lemma StartWatches(s: State, w: nat, t: Topic, mode: Mode, cfg: Config)
    requires FeedsInv(s, cfg) && w !in s.watches && t in s.feeds
    ensures var feeds, watches := s.feeds[t := Subscribe(s.feeds[t])],
              s.watches[w := Watch(t, Start(s.feeds[t], mode))];
            FeedsOk(feeds, cfg) && WatchesOk(feeds, watches)
  {
    var feeds, watches := s.feeds[t := Subscribe(s.feeds[t])], s.watches[w := Watch(t, Start(s.feeds[t], mode))];
    assert FeedOk(s.feeds, t, cfg);
    SubscribeEvolves(s.feeds[t], BoundsOf(t, cfg));
    OneFeedEvolves(s.feeds, t, Subscribe(s.feeds[t]), cfg);
    EvolutionKeepsWatches(s.feeds, feeds, s.watches, cfg);
    StartOk(s.feeds[t], BoundsOf(t, cfg), mode, IsExit);
    forall v ensures WatchOk(feeds, watches, v) {
      assert WatchOk(feeds, s.watches, v) && WatchOk(s.feeds, s.watches, v);
      forall u | u in watches && v in watches && SameChannel(watches[u], watches[v]) ensures u == v {
        assert WatchOk(s.feeds, s.watches, u);
      }
    }
  }

  lemma StartWatchInv(s: State, w: nat, t: Topic, mode: Mode, cfg: Config)
    requires Inv(s, cfg) && w !in s.watches
    ensures Inv(StartWatch(s, w, t, mode), cfg)
  {
    if Stored(s, t) && t in s.feeds {
      StartWatches(s, w, t, mode, cfg);
      FeedStepInv(s, t, Subscribe(s.feeds[t]), s.watches[w := Watch(t, Start(s.feeds[t], mode))], cfg);
    }
  }

  /** One follower moved to `f`, on feed `l` which differs from the old one only in that follower's channel. */
  lemma OwnStepWatches(s: State, w: nat, l: Log<Event>, f: Follower<Event>, cfg: Config)
    requires FeedsInv(s, cfg) && w in s.watches && f.sub == s.watches[w].follower.sub && s.watches[w].topic in s.feeds
    requires LogOk(l, BoundsOf(s.watches[w].topic, cfg)) && FollowerOk(l, f, IsExit)
    requires forall me :: me in s.feeds[s.watches[w].topic].chans && me != f.sub ==>
               Env(s.feeds[s.watches[w].topic], l, me) && l.chans[me] == s.feeds[s.watches[w].topic].chans[me]
    ensures var t := s.watches[w].topic;
            FeedsOk(s.feeds[t := l], cfg) && WatchesOk(s.feeds[t := l], s.watches[w := Watch(t, f)])
  {
    var t := s.watches[w].topic;
    var feeds, watches := s.feeds[t := l], s.watches[w := Watch(t, f)];
    OneFeedOk(s.feeds, t, l, cfg);
    assert WatchOk(s.feeds, s.watches, w);
    forall v ensures WatchOk(feeds, watches, v) {
      assert WatchOk(s.feeds, s.watches, v);
      if v in s.watches && v != w && s.watches[v].topic == t {
        assert !SameChannel(s.watches[w], s.watches[v]);
        assert FeedOk(s.feeds, t, cfg);
        EnvKeepsFollower(s.feeds[t], l, BoundsOf(t, cfg), s.watches[v].follower, IsExit);
      }
      forall u | u in watches && v in watches && SameChannel(watches[u], watches[v]) ensures u == v {
        assert SameChannel(s.watches[u], s.watches[v]);
      }
    }
  }

  lemma MoveOk(l: Log<Event>, f: Follower<Event>, m: FollowMove, b: Bounds)
    requires LogOk(l, b) && FollowerOk(l, f, IsExit)
    requires match m
             case NextHistory => f.pc.History?
             case TakeEvent => CanTake(l, f)
             case SeeClosed => SeesClosed(l, f)
             case SeeDone => f.pc.Following? && l.doneClosed
             case FindDry => DrainedDry(l, f)
             case GiveUp => !f.pc.Returned?
    ensures var l' := if m.TakeEvent? then Receive(l, f.sub) else l;
            LogOk(l', b) && FollowerOk(l', Moved(l, f, m), IsExit) && Moved(l, f, m).sub == f.sub
  {
    match m
    case NextHistory => HistoryStepOk(l, b, f, IsExit);
    case TakeEvent => ReceiveOk(l, f.sub, b); TakeStepOk(l, b, f, IsExit);
    case SeeClosed => ClosedStepOk(l, b, f, IsExit);
    case SeeDone =>
    case FindDry => DrainedStepOk(l, b, f, IsExit);
    case GiveUp =>
  }

  lemma MoveWatchInv(s: State, w: nat, m: FollowMove, cfg: Config)
    requires Inv(s, cfg) && CanMove(s, w, m)
    ensures Inv(MoveWatch(s, w, m), cfg)
  {
    var t, f := s.watches[w].topic, s.watches[w].follower;
    var l := s.feeds[t];
    var l' := if m.TakeEvent? then Receive(l, f.sub) else l;
    MoveFeeds(s, w, m, cfg);
    FeedStepInv(s, t, l', s.watches[w := Watch(t, Moved(l, f, m))], cfg);
    MoveWatchShape(s, w, m);
  }

  /** A follower's move leaves the other channels alone. */
  lemma MoveSpares(l: Log<Event>, f: Follower<Event>, m: FollowMove)
    requires m.TakeEvent? ==> CanTake(l, f)
    ensures var l' := if m.TakeEvent? then Receive(l, f.sub) else l;
            forall me :: me in l.chans && me != f.sub ==> Env(l, l', me) && l'.chans[me] == l.chans[me]
  {
    var l' := if m.TakeEvent? then Receive(l, f.sub) else l;
    forall me | me in l.chans && me != f.sub ensures Env(l, l', me) && l'.chans[me] == l.chans[me] {
      if m.TakeEvent? {
        OtherConsumerEnv(l, l', f.sub, me);
      } else {
        EnvRefl(l, me);
      }
    }
  }

  lemma MoveFeeds(s: State, w: nat, m: FollowMove, cfg: Config)
    requires FeedsInv(s, cfg) && CanMove(s, w, m)
    ensures var t, f := s.watches[w].topic, s.watches[w].follower;
            var l := s.feeds[t];
            var feeds := s.feeds[t := if m.TakeEvent? then Receive(l, f.sub) else l];
            FeedsOk(feeds, cfg) && WatchesOk(feeds, s.watches[w := Watch(t, Moved(l, f, m))])
  {
    var t, f := s.watches[w].topic, s.watches[w].follower;
    var l, b := s.feeds[t], BoundsOf(t, cfg);
    assert WatchOk(s.feeds, s.watches, w) && FeedOk(s.feeds, t, cfg);
    MoveOk(l, f, m, b);
    var l' := if m.TakeEvent? then Receive(l, f.sub) else l;
    MoveSpares(l, f, m);
    OwnStepWatches(s, w, l', Moved(l, f, m), cfg);
  }

  lemma MoveWatchShape(s: State, w: nat, m: FollowMove)
    requires CanMove(s, w, m)
    ensures var t, f := s.watches[w].topic, s.watches[w].follower;
            var l' := if m.TakeEvent? then Receive(s.feeds[t], f.sub) else s.feeds[t];
            MoveWatch(s, w, m)
            == s.(feeds := s.feeds[t := l'], watches := s.watches[w := Watch(t, Moved(s.feeds[t], f, m))])
  {
    assert s.feeds[s.watches[w].topic := s.feeds[s.watches[w].topic]] == s.feeds;
  }

  lemma UnsubscribeOwn(l: Log<Event>, f: Follower<Event>, b: Bounds)
    requires LogOk(l, b) && FollowerOk(l, f, IsExit) && f.pc.Returned?
    ensures LogOk(Unsubscribe(l, f.sub), b) && FollowerOk(Unsubscribe(l, f.sub), f, IsExit)
  {
    UnsubscribeOk(l, f.sub, b);
    assert ChanOk(l.chans[f.sub], l.trace, f.sub in l.subs, l.doneClosed);
  }

  lemma EndWatchInv(s: State, w: nat, cfg: Config)
    requires Inv(s, cfg) && w in s.watches && s.watches[w].follower.pc.Returned?
    ensures Inv(EndWatch(s, w), cfg)
  {
    var t, f := s.watches[w].topic, s.watches[w].follower;
    assert WatchOk(s.feeds, s.watches, w) && FeedOk(s.feeds, t, cfg);
    if Stored(s, t) && t in s.feeds {
      var l, l' := s.feeds[t], Unsubscribe(s.feeds[t], f.sub);
      UnsubscribeOwn(l, f, BoundsOf(t, cfg));
      forall me | me in l.chans && me != f.sub ensures Env(l, l', me) && l'.chans[me] == l.chans[me] {
        OtherConsumerEnv(l, l', f.sub, me);
      }
      OwnStepWatches(s, w, l', f, cfg);
      assert s.watches[w := Watch(t, f)] == s.watches;
      FeedStepInv(s, t, l', s.watches, cfg);
    }
  }
}

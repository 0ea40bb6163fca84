/** Loops over the service's tables, on values: broadcasting, closing, clearing, searching. */
module ServiceStore {
  import opened EventLog
  import opened ServiceModel
  import Pruning

  /** One subscriber: a non-blocking send, or close and forget. */
  method SendTo(chans: map<nat, Chan<Event>>, id: nat, e: Event, capacity: nat) returns (r: map<nat, Chan<Event>>,
      keep: bool)
    requires id in chans
    ensures keep <==> |chans[id].buffer| < capacity
    ensures r == chans[id := Offer(chans[id], e, capacity)]
  {
    keep := |chans[id].buffer| < capacity;
    r := chans[id := if keep then chans[id].Send(e) else chans[id].Close(Overflowed)];
  }

  /** recordExecutionEventLocked and recordSandboxEventLocked: retain the event and offer it to every subscriber. */
  method Broadcast(l: Log<Event>, e: Event, b: Bounds) returns (r: Log<Event>)
    requires l.subs <= l.chans.Keys
    ensures r == Record(l, e, b)
  {
    var chans, subs := OfferAll(l.chans, l.subs, e, b.capacity);
    r := l.(trace := l.trace + [e], history := AppendBounded(l.history, e, b.limit), chans := chans, subs := subs);
  }

  method OfferAll(all: map<nat, Chan<Event>>, registered: set<nat>, e: Event, capacity: nat)
    returns (chans: map<nat, Chan<Event>>, subs: set<nat>)
    requires registered <= all.Keys
    ensures chans == map i | i in all :: if i in registered then Offer(all[i], e, capacity) else all[i]
    ensures subs == set i | i in registered && (i in all ==> |all[i].buffer| < capacity)
  {
    var rest := registered;
    chans, subs := all, registered;
    while rest != {}
      invariant rest <= registered
      invariant chans == map i | i in all ::
                           if i in registered && i !in rest then Offer(all[i], e, capacity) else all[i]
      invariant subs == set i | i in registered && (i in rest || |all[i].buffer| < capacity)
      decreases rest
    {
      var id :| id in rest;
      rest := rest - {id};
      var keep;
      chans, keep := SendTo(chans, id, e, capacity);
      if !keep {
        subs := subs - {id};
      }
    }
  }

  /** closeExecutionSubscribersLocked and closeExecutionDoneLocked, and the same for sandboxes. */
  method CloseFeed(l: Log<Event>) returns (r: Log<Event>)
    requires l.subs <= l.chans.Keys
    ensures r == Drop(l)
  {
    var chans, rest := l.chans, l.subs;
    while rest != {}
      invariant rest <= l.subs && chans.Keys == l.chans.Keys
      invariant forall i :: i in chans ==>
                  chans[i] == if i in l.subs - rest then l.chans[i].Close(Dropped) else l.chans[i]
      decreases rest
    {
      var id :| id in rest;
      rest := rest - {id};
      chans := chans[id := chans[id].Close(Dropped)];
    }
    r := l.(chans := chans, subs := {});
    assert r.chans == CloseSubscribers(l).chans;
    r := CloseDone(r);
  }

  /** clearInteractiveExecutionStateLocked: the sessions of one execution are forgotten. */
  method ForgetSessions(sessions: map<Id, Session>, k: Key) returns (r: map<Id, Session>)
    ensures r == map i | i in sessions && sessions[i].key != k :: sessions[i]
  {
    r := sessions;
    var rest := sessions.Keys;
    while rest != {}
      invariant rest <= sessions.Keys
      invariant r == map i | i in sessions && (i in rest || sessions[i].key != k) :: sessions[i]
      decreases rest
    {
      var i :| i in rest;
      rest := rest - {i};
      if sessions[i].key == k {
        r := r - {i};
      }
    }
  }

  method ForgetExpired(sessions: map<Id, Session>, now: nat) returns (r: map<Id, Session>)
    ensures r == Unexpired(sessions, now)
  {
    r := sessions;
    var rest := sessions.Keys;
    while rest != {}
      invariant rest <= sessions.Keys
      invariant r == map i | i in sessions && (i in rest || now <= sessions[i].expiresAt) :: sessions[i]
      decreases rest
    {
      var i :| i in rest;
      rest := rest - {i};
      if now > sessions[i].expiresAt {
        r := r - {i};
      }
    }
  }

  /** hasPendingInteractiveSessionLocked. */
  method FindPending(sessions: map<Id, Session>, k: Key) returns (found: bool)
    ensures found <==> Pending(sessions, k)
  {
    var rest := sessions.Keys;
    while rest != {}
      invariant rest <= sessions.Keys
      invariant forall i :: i in sessions && sessions[i].key == k ==> i in rest
      decreases rest
    {
      var i :| i in rest;
      if sessions[i].key == k {
        return true;
      }
      rest := rest - {i};
    }
    found := false;
  }

  /** hasActiveExecutionLocked. */
  method FindLive(executions: map<Key, Execution>, id: Id) returns (found: bool)
    ensures found <==> HasLive(executions, id)
  {
    var rest := executions.Keys;
    while rest != {}
      invariant rest <= executions.Keys
      invariant forall k :: k in executions && k.sandbox == id && Live(executions, k) ==> k in rest
      decreases rest
    {
      var k :| k in rest;
      if k.sandbox == id && !Final(executions[k].status) {
        return true;
      }
      rest := rest - {k};
    }
    found := false;
  }

  /** The checks of CreateExecution, in order. */
  method CheckCreate(sandboxes: map<Id, Sandbox>, executions: map<Key, Execution>, id: Id, cfg: Config,
                     ghost s: State) returns (v: Verdict)
    requires sandboxes == s.sandboxes && executions == s.executions
    ensures v == CreateVerdict(s, id, cfg)
  {
    if id !in sandboxes {
      return UnknownSandbox;
    }
    var sb := sandboxes[id];
    if !sb.status.Ready? {
      return NotReady;
    }
    if sb.backend !in cfg.backends {
      return UnknownBackend;
    }
    if sb.active.Some? && Key(id, sb.active.value) in executions
        && !Final(executions[Key(id, sb.active.value)].status) {
      return Busy;
    }
    v := if sb.download then Busy else Accepted;
  }

  // ---- Pruning ----

  /** First loop of pruneExecutionsLocked: what has expired, and the other finished executions with their times. */
  method SortOutExecutions(executions: map<Key, Execution>, now: nat, cfg: Config)
    returns (expired: set<Key>, candidates: map<Key, nat>)
    ensures candidates == ExecCandidates(executions, now, cfg)
    ensures expired == set k | k in executions && Final(executions[k].status) && k !in candidates
  {
    var rest := executions.Keys;
    expired, candidates := {}, map[];
    while rest != {}
      invariant rest <= executions.Keys
      invariant expired == set k | k in executions && k !in rest && Final(executions[k].status)
                                   && Expired(ExecTerminalTime(executions[k]), now, cfg)
      invariant candidates == map k | k in executions && k !in rest && Final(executions[k].status)
                                      && !Expired(ExecTerminalTime(executions[k]), now,
                                                  cfg) :: ExecTerminalTime(executions[k])
      decreases rest
    {
      var k :| k in rest;
      rest := rest - {k};
      if Final(executions[k].status) {
        var t := ExecTerminalTime(executions[k]);
        if Expired(t, now, cfg) {
          expired := expired + {k};
        } else {
          candidates := candidates[k := t];
        }
      }
    }
  }

  /** First loop of pruneSandboxesLocked. */
  method SortOutSandboxes(sandboxes: map<Id, Sandbox>, executions: map<Key, Execution>, now: nat, cfg: Config,
                          ghost s: State)
    returns (expired: set<Id>, candidates: map<Id, nat>)
    requires sandboxes == s.sandboxes && executions == s.executions
    ensures candidates == SandboxCandidates(s, now, cfg)
    ensures expired == set id | id in sandboxes && Stale(s, id) && id !in candidates
  {
    var rest := sandboxes.Keys;
    expired, candidates := {}, map[];
    while rest != {}
      invariant rest <= sandboxes.Keys
      invariant expired == set id | id in sandboxes && id !in rest && Stale(s, id)
                  && Expired(SandboxTerminalTime(sandboxes[id]), now, cfg)
      invariant candidates == map id | id in sandboxes && id !in rest && Stale(s, id)
                                       && !Expired(SandboxTerminalTime(sandboxes[id]), now,
                                                   cfg) :: SandboxTerminalTime(sandboxes[id])
      decreases rest
    {
      var id :| id in rest;
      rest := rest - {id};
      var busy := FindLive(executions, id);
      if sandboxes[id].status.Stopped? && !busy {
        var t := SandboxTerminalTime(sandboxes[id]);
        if Expired(t, now, cfg) {
          expired := expired + {id};
        } else {
          candidates := candidates[id := t];
        }
      }
    }
  }

  lemma ExecutionsToDrop(executions: map<Key, Execution>, expired: set<Key>, now: nat, cfg: Config)
    requires expired == set k | k in executions && Final(executions[k].status)
               && k !in ExecCandidates(executions, now, cfg)
    ensures var candidates := ExecCandidates(executions, now, cfg);
            executions.Keys - KeptExecutions(executions, now, cfg)
            == expired + (candidates.Keys - Pruning.KeepNewest(candidates, ExecutionKey, cfg.finishedLimit))
  {
  }

  lemma SandboxesToDrop(s: State, expired: set<Id>, now: nat, cfg: Config)
    requires expired == set id | id in s.sandboxes && Stale(s, id) && id !in SandboxCandidates(s, now, cfg)
    ensures var candidates := SandboxCandidates(s, now, cfg);
            s.sandboxes.Keys - KeptSandboxes(s, now, cfg)
            == expired + (candidates.Keys - Pruning.KeepNewest(candidates, IdName, cfg.stoppedLimit))
  {
  }

  lemma DropNoExecutions(s: State)
    ensures DropExecutions(s, {}) == s
  {
    var s' := DropExecutions(s, {});
    assert Topics({}) == {};
    DropNoFeeds(s.feeds);
    assert s'.sessions == s.sessions;
    assert s'.executions == s.executions;
  }

  lemma DropNoSandboxes(s: State)
    ensures DropSandboxes(s, {}) == s
  {
    var none: set<Id> := {};
    assert (set id | id in none :: OfSandbox(id)) == {};
    DropNoFeeds(s.feeds);
    assert DropSandboxes(s, {}).sandboxes == s.sandboxes;
  }

  lemma DropNoFeeds(feeds: Feeds)
    ensures DropFeeds(feeds, {}) == feeds
  {
  }

  lemma DropExecutionsOneMore(s: State, gone: set<Key>, k: Key)
    requires k !in gone
    ensures DropExecutions(DropExecutions(s, gone), {k}) == DropExecutions(s, gone + {k})
  {
    var s1, s2 := DropExecutions(DropExecutions(s, gone), {k}), DropExecutions(s, gone + {k});
    DropFeedsOneMore(s.feeds, Topics(gone), OfExec(k));
    assert Topics({k}) == {OfExec(k)} && Topics(gone + {k}) == Topics(gone) + {OfExec(k)};
    assert s1.sessions == s2.sessions;
    assert s1.executions == s2.executions;
    assert s1.attached == s2.attached;
  }

  lemma DropFeedsOneMore(feeds: Feeds, gone: set<Topic>, t: Topic)
    requires t !in gone
    ensures DropFeeds(DropFeeds(feeds, gone), {t}) == DropFeeds(feeds, gone + {t})
  {
  }

  lemma DropSandboxesOneMore(s: State, gone: set<Id>, id: Id)
    requires id !in gone
    ensures DropSandboxes(DropSandboxes(s, gone), {id}) == DropSandboxes(s, gone + {id})
  {
    var s1, s2 := DropSandboxes(DropSandboxes(s, gone), {id}), DropSandboxes(s, gone + {id});
    var topics := set j | j in gone :: OfSandbox(j);
    DropFeedsOneMore(s.feeds, topics, OfSandbox(id));
    assert (set j | j in {id} :: OfSandbox(j)) == {OfSandbox(id)};
    assert (set j | j in gone + {id} :: OfSandbox(j)) == topics + {OfSandbox(id)};
    assert s1.sandboxes == s2.sandboxes;
  }
}

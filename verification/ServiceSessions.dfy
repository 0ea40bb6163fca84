/** Interactive sessions over whole runs: which open call a session comes from, and what it takes to consume it. */
module ServiceSessions {
  import opened Seqs
  import EventLog
  import opened ServiceModel
  import opened ServiceInvariant
  import opened ServiceClientSteps
  import opened ServiceTheorems

  /** Every session of the second table is in the first, unchanged. */
  ghost predicate NoNewSession(s: State, s': State) {
    forall id :: id in s'.sessions ==> id in s.sessions && s'.sessions[id] == s.sessions[id]
  }

  lemma PruneSessions(s: State, now: nat, cfg: Config)
    ensures NoNewSession(s, Prune(s, now, cfg))
  {
  }

  lemma FinalizeSessions(s: State, k: Key, status: Status, code: int, message: string, text: string, now: nat,
                         cfg: Config)
    requires k in s.executions
    ensures NoNewSession(s, Prune(Finalize(s, k, status, code, message, text, now, cfg), now, cfg))
  {
    var s1 := Finalize(s, k, status, code, message, text, now, cfg);
    PruneSessions(s1, now, cfg);
  }

  lemma FinishSessions(s: State, k: Key, result: RunResult, streaming: bool, now: nat, cfg: Config)
    ensures NoNewSession(s, FinishRun(s, k, result, streaming, now, cfg))
  {
    if k in s.executions {
      var (status, code) := RunOutcome(s, k, result);
      FinalizeSessions(Collected(s, k, result, streaming, now, cfg), k, status, code, ResultMessage(result), "", now,
                       cfg);
    }
  }

  lemma QuitSessions(s: State, k: Key, status: Status, code: int, text: string, now: nat, cfg: Config)
    requires k in s.executions
    ensures var quit := s.(runners := s.runners[k := RunnerDone]);
            NoNewSession(s, Prune(Finalize(quit, k, status, code, s.executions[k].message, text, now, cfg), now, cfg))
  {
    var quit := s.(runners := s.runners[k := RunnerDone]);
    FinalizeSessions(quit, k, status, code, s.executions[k].message, text, now, cfg);
  }

  lemma BeginRunSessions(s: State, k: Key, now: nat, cfg: Config)
    ensures NoNewSession(s, BeginRun(s, k, now, cfg))
  {
    if Live(s.executions, k) {
      if k.sandbox !in s.sandboxes {
        QuitSessions(s, k, Failed, 1, "sandbox no longer exists", now, cfg);
      } else if !s.sandboxes[k.sandbox].status.Ready? {
        QuitSessions(s, k, Canceled, CancelExitCode(s.executions[k].cancelSignal), "sandbox is not ready", now, cfg);
      } else {
        QuitSessions(s, k, Failed, 1, "unknown backend", now, cfg);
      }
    }
  }

  lemma CancelSessions(s: State, k: Key, signal: int, now: nat, cfg: Config)
    ensures NoNewSession(s, Cancel(s, k, signal, now, cfg))
  {
    if Live(s.executions, k) {
      var n := NormalSignal(signal);
      FinalizeSessions(CancelNoted(s, k, n, cfg), k, Canceled, CancelExitCode(n), s.executions[k].message,
                       "execution canceled before start", now, cfg);
    }
  }

  lemma TerminateSessions(s: State, id: Id, now: nat, cfg: Config)
    ensures NoNewSession(s, TerminateBegin(s, id, now, cfg))
  {
  }

  lemma TerminateEndSessions(s: State, id: Id, ok: bool, now: nat, cfg: Config)
    ensures NoNewSession(s, TerminateEnd(s, id, ok, now, cfg))
  {
    var s1 := s.(terminating := s.terminating - multiset{id});
    PruneSessions(s1, now, cfg);
    if id in s.sandboxes {
      var stopped := SetSandbox(s1, id, Stopped, "sandbox terminated", now, cfg);
      PruneSessions(stopped.(feeds := Seal(stopped.feeds, OfSandbox(id))), now, cfg);
    }
  }

  lemma CreateSessions(s: State, k: Key, kind: Kind, now: nat, cfg: Config)
    ensures NoNewSession(s, CreateExecution(s, k, kind, now, cfg))
  {
    if k.sandbox in s.sandboxes {
      PruneSessions(Enqueued(s, k, kind, now, cfg), now, cfg);
    }
  }

  lemma ConsumeSessions(s: State, h: nat, id: Id, token: string, now: nat)
    ensures NoNewSession(s, ConsumeSession(s, h, id, token, now))
  {
    ConsumeSessionShape(s, h, id, token, now);
  }

  lemma RunSessions(s: State, op: Op, cfg: Config)
    requires Enabled(s, op, cfg) && (op.OpOutput? || op.OpAttach? || op.OpCallCancel?)
    ensures Apply(s, op, cfg).sessions == s.sessions
  {
  }

  lemma DownloadSessions(s: State, op: Op, cfg: Config)
    requires Enabled(s, op, cfg) && (op.OpDownloadBegin? || op.OpDownloadEnd? || op.OpRelease?)
    ensures Apply(s, op, cfg).sessions == s.sessions
  {
  }

  lemma WatchSessions(s: State, op: Op, cfg: Config)
    requires Enabled(s, op, cfg) && (op.OpWatch? || op.OpMove? || op.OpEndWatch?)
    ensures Apply(s, op, cfg).sessions == s.sessions
  {
  }

  /** No step but an open makes a session. */
  lemma OnlyOpenMakesSessions(s: State, op: Op, cfg: Config)
    requires Enabled(s, op, cfg) && !op.OpOpen?
    ensures NoNewSession(s, Apply(s, op, cfg))
  {
    match op
    case OpCreateSandbox(id, backend, now) => CreateSandboxSessions(s, id, backend, now, cfg);
    case OpTerminateBegin(id, now) => TerminateSessions(s, id, now, cfg);
    case OpTerminateEnd(id, ok, now) => TerminateEndSessions(s, id, ok, now, cfg);
    case OpCreateExecution(k, kind, now) => CreateSessions(s, k, kind, now, cfg);
    case OpBeginRun(k, now) => BeginRunSessions(s, k, now, cfg);
    case OpFinishRun(k, result, streaming, now) => FinishSessions(s, k, result, streaming, now, cfg);
    case OpCancel(k, signal, now) => CancelSessions(s, k, signal, now, cfg);
    case OpWatch(_, _, _) => WatchSessions(s, op, cfg);
    case OpMove(_, _) => WatchSessions(s, op, cfg);
    case OpEndWatch(_) => WatchSessions(s, op, cfg);
    case OpConsume(h, id, token, now) => ConsumeSessions(s, h, id, token, now);
    case OpOutput(_, _, _) => RunSessions(s, op, cfg);
    case OpAttach(_) => RunSessions(s, op, cfg);
    case OpCallCancel(_) => RunSessions(s, op, cfg);
    case _ => DownloadSessions(s, op, cfg);
  }

  lemma CreateSandboxSessions(s: State, id: Id, backend: string, now: nat, cfg: Config)
    ensures NoNewSession(s, CreateSandbox(s, id, backend, now, cfg))
  {
    var sb, event := Sandbox(backend, Ready, None, false, now, now), SandboxEvent(Ready, "sandbox created and ready");
    var s1 := s.(sandboxes := s.sandboxes[id := sb],
                 feeds := s.feeds[OfSandbox(id) := EventLog.Record(EventLog.EmptyLog(), event,
                                                                   BoundsOf(OfSandbox(id), cfg))]);
    PruneSessions(s1, now, cfg);
  }

  // ---- Over runs ----

  /** The `j`-th step opened session `id`, and this is what it issued. */
  ghost predicate OpenedAt(states: seq<State>, ops: seq<Op>, j: nat, id: Id, issued: Session)
    requires |states| == |ops| + 1 && j < |ops|
  {
    && ops[j].OpOpen? && ops[j].session == id && id !in states[j].issued && id in states[j + 1].issued
    && issued.key == ops[j].key && issued.token == ops[j].token && issued.expiresAt == ops[j].now + ops[j].ttl
  }

  lemma OpenMakesOne(s: State, op: Op, cfg: Config, id: Id)
    requires Enabled(s, op, cfg) && op.OpOpen? && id in Apply(s, op, cfg).sessions
    ensures var s' := Apply(s, op, cfg);
            || (id in s.sessions && s'.sessions[id] == s.sessions[id])
            || (id == op.session && id in s'.issued && s'.sessions[id] == Session(op.key, op.token, op.now + op.ttl))
  {
    OpenSessionShape(s, op.session, op.key, op.token, op.ttl, op.now, cfg);
  }

  /** Every pending session was issued by an open call of the run, with that call's token and time to live. */
  lemma {:induction false} PendingWasOpened(states: seq<State>, ops: seq<Op>, cfg: Config, n: nat, id: Id)
    returns (j: nat)
    requires IsRun(states, ops, cfg) && n < |states| && id in states[n].sessions
    ensures j < n && OpenedAt(states, ops, j, id, states[n].sessions[id])
  {
    assert n > 0;
    assert StepAt(states, ops, cfg, n - 1);
    var s, op := states[n - 1], ops[n - 1];
    if op.OpOpen? {
      OpenMakesOne(s, op, cfg, id);
    } else {
      OnlyOpenMakesSessions(s, op, cfg);
    }
    if id in s.sessions && s.sessions[id] == states[n].sessions[id] {
      j := PendingWasOpened(states, ops, cfg, n - 1, id);
    } else {
      j := n - 1;
    }
  }

  lemma ConsumeAnswer(s: State, h: nat, id: Id, token: string, now: nat, cfg: Config)
    requires Inv(s, cfg) && h !in s.handlers
    ensures var s' := ConsumeSession(s, h, id, token, now);
            && (h in s'.handlers <==>
                  id in s.sessions && s.sessions[id].token == token && now <= s.sessions[id].expiresAt)
            && (h in s'.handlers ==> s'.handlers[h] == s.sessions[id].key && s'.handlers[h] in s'.attached)
            && (h in s'.handlers ==> id !in s'.sessions)
            && (h !in s'.handlers ==>
                  s'.handlers == s.handlers && s'.attached == s.attached && s'.sessions == Unexpired(s.sessions, now))
  {
    ConsumeSessionShape(s, h, id, token, now);
  }

  /** What it takes to attach, in every run: a connection gets the execution exactly when it presents the token of a
      pending session no later than that session's expiry, and then some earlier open call issued just that token for
      just that execution, with a time to live that has not passed. A refused connection changes nothing but that
      expired sessions are forgotten. */
  lemma ConsumingNeedsTheToken(states: seq<State>, ops: seq<Op>, cfg: Config, i: nat)
    requires IsRun(states, ops, cfg) && i < |ops| && ops[i].OpConsume?
    ensures var s, s', op := states[i], states[i + 1], ops[i];
            && op.handler !in s.handlers
            && (op.handler in s'.handlers <==>
                  && op.session in s.sessions && s.sessions[op.session].token == op.token
                  && op.now <= s.sessions[op.session].expiresAt)
            && (op.handler in s'.handlers ==>
                  && s'.handlers[op.handler] in s'.attached && op.session !in s'.sessions
                  && exists j ::
                       && 0 <= j < i && ops[j].OpOpen? && ops[j].session == op.session && ops[j].token == op.token
                       && ops[j].key == s'.handlers[op.handler] && op.now <= ops[j].now + ops[j].ttl)
            && (op.handler !in s'.handlers ==>
                  s'.handlers == s.handlers && s'.attached == s.attached
                      && s'.sessions == Unexpired(s.sessions, op.now))
  {
    var s, op := states[i], ops[i];
    RunInv(states, ops, cfg, i);
    assert StepAt(states, ops, cfg, i);
    ConsumeAnswer(s, op.handler, op.session, op.token, op.now, cfg);
    if op.handler in states[i + 1].handlers {
      var j := PendingWasOpened(states, ops, cfg, i, op.session);
      assert ops[j].OpOpen? && ops[j].session == op.session;
    }
  }

  /** An open call issues a session exactly when the transport is set up and the execution is stored, interactive, not
      finished, not attached, and has no session that is still good. */
  lemma OpeningNeedsAFreeExecution(states: seq<State>, ops: seq<Op>, cfg: Config, i: nat)
    requires IsRun(states, ops, cfg) && i < |ops| && ops[i].OpOpen?
    ensures var s, s', op := states[i], states[i + 1], ops[i];
            && op.session !in s.issued
            && (op.session in s'.sessions <==>
                  && cfg.transport && op.key in s.executions && s.executions[op.key].kind.Interactive?
                  && (s.executions[op.key].status.Queued? || s.executions[op.key].status.Running?)
                  && op.key !in s.attached
                  && forall id :: id in s.sessions && s.sessions[id].key == op.key ==>
                      op.now > s.sessions[id].expiresAt)
            && (op.session in s'.sessions ==> s'.sessions[op.session] == Session(op.key, op.token, op.now + op.ttl))
  {
    RunInv(states, ops, cfg, i);
    assert StepAt(states, ops, cfg, i);
    OpenAnswer(states[i], ops[i], cfg);
  }

  lemma OpenAnswer(s: State, op: Op, cfg: Config)
    requires InteractiveInv(s) && op.OpOpen? && op.session !in s.issued
    ensures var s' := OpenSession(s, op.session, op.key, op.token, op.ttl, op.now, cfg);
            && (op.session in s'.sessions <==> CanOpen(s, op.key, op.now, cfg))
            && (op.session in s'.sessions ==> s'.sessions[op.session] == Session(op.key, op.token, op.now + op.ttl))
    ensures Pending(Unexpired(s.sessions, op.now), op.key) <==>
              exists id :: id in s.sessions && s.sessions[id].key == op.key && op.now <= s.sessions[id].expiresAt
  {
    OpenSessionShape(s, op.session, op.key, op.token, op.ttl, op.now, cfg);
    assert op.session !in s.sessions;
    if id :| id in s.sessions && s.sessions[id].key == op.key && op.now <= s.sessions[id].expiresAt {
      assert id in Unexpired(s.sessions, op.now) && Unexpired(s.sessions, op.now)[id].key == op.key;
    }
  }
}

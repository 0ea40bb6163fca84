/** The client object behind EnsureSandbox: every critical section under its mutex and every use of a gate channel
    is one method, and each is the corresponding step of the lock protocol. */
module EnsureClient {
  import opened Seqs
  import opened Text
  import opened EnsureLock
  import opened EnsureOutcomes

  /** The gate is a channel of capacity one, represented by the tokens in it. */
  class EnsureKeyLock {
    var gate: nat
    var refs: int

    constructor ()
      ensures gate == 1 && refs == 0
    {
      gate, refs := 1, 0;
    }
  }

  /** What the proofs below need to know about a goroutine in a reachable state. */
  lemma CallFacts<O>(states: seq<State<O>>, ops: seq<Op<O>>, s: State<O>, t: Thread)
    requires IsRun(states, ops) && s == states[|ops|] && t in s.calls
    ensures Uses(s.calls[t]) ==> s.calls[t].lock in s.locks
    ensures s.calls[t].pc.Holding? ==>
              s.locks[s.calls[t].lock].gate == 0 && StageOk(s.tracked, s.calls[t].req.key, s.calls[t].pc.stage)
  {
    RunInv(states, ops, |ops|);
    assert CallOk(s, s.calls[t]);
    if s.calls[t].pc.Holding? {
      assert LockOk(s, s.calls[t].lock);
      assert t in Holders(s.calls, s.calls[t].lock);
    }
  }

  lemma EntriesStored<O>(states: seq<State<O>>, ops: seq<Op<O>>, s: State<O>)
    requires IsRun(states, ops) && s == states[|ops|]
    ensures forall k :: k in s.entries ==> s.entries[k] in s.locks
  {
    RunInv(states, ops, |ops|);
  }

  class Client {
    var sandboxByKey: map<string, Id>
    var ensureLocks: map<string, EnsureKeyLock>
    ghost var locks: set<EnsureKeyLock>
    ghost var calls: map<Thread, Call<EnsureKeyLock>>
    ghost var states: seq<State<EnsureKeyLock>>
    ghost var ops: seq<Op<EnsureKeyLock>>

    ghost function View(): State<EnsureKeyLock>
      reads this, locks
    {
      State(sandboxByKey, ensureLocks, map o | o in locks :: Lock(o.gate, o.refs), calls)
    }

    /** The client's history is a run of the protocol and has led to its present state. */
    ghost predicate Valid()
      reads this, locks
    {
      IsRun(states, ops) && states[|ops|] == View()
    }

    constructor ()
      ensures Valid() && View() == Initial<EnsureKeyLock>()
    {
      sandboxByKey, ensureLocks, locks, calls := map[], map[], {}, map[];
      states, ops := [Initial()], [];
    }

    ghost method Note(op: Op<EnsureKeyLock>)
      requires IsRun(states, ops) && Enabled(states[|ops|], op) && View() == Apply(states[|ops|], op)
      modifies this`states, this`ops
      ensures Valid()
    {
      ExtendRun(states, ops, op);
      states, ops := states + [View()], ops + [op];
    }

    /** lockEnsureKey up to its select, for a key that is not blank. */
    method EnterKey(key: string, explicit: string, backend: string, hasPolicy: bool,
                    ghost t: Thread) returns (lock: EnsureKeyLock)
      requires Valid() && t !in calls && !Blank(key)
      modifies this, locks
      ensures Valid() && lock in locks && fresh(locks - old(locks))
      ensures View() == Begin(old(View()), t, key, explicit, backend, hasPolicy, lock)
      ensures TrimSpace(key) in old(ensureLocks) ==> lock == old(ensureLocks)[TrimSpace(key)]
    {
      ghost var before := View();
      EntriesStored(states, ops, before);
      lock := Join(Request(TrimSpace(key), TrimSpace(explicit), TrimSpace(backend), hasPolicy), t);
      Note(OpEnter(t, key, explicit, backend, hasPolicy, lock));
    }

    /** Find or make the key's lock and count the caller in. */
    method Join(req: Request, ghost t: Thread) returns (lock: EnsureKeyLock)
      requires t !in calls && (req.key in ensureLocks ==> ensureLocks[req.key] in locks)
      modifies this`ensureLocks, this`locks, this`calls, locks
      ensures lock in locks && fresh(locks - old(locks)) && View() == Enter(old(View()), t, req, lock)
      ensures req.key in old(ensureLocks) ==> lock == old(ensureLocks)[req.key]
      ensures req.key !in old(ensureLocks) ==> lock !in old(locks)
    {
      ghost var before := View();
      lock := FindLock(req.key);
      lock.refs := lock.refs + 1;
      calls := calls[t := Call(req, lock, Waiting)];
      ghost var after := Enter(before, t, req, lock);
      assert View().locks == after.locks;
      assert View().entries == after.entries;
    }

    method FindLock(key: string) returns (lock: EnsureKeyLock)
      requires key in ensureLocks ==> ensureLocks[key] in locks
      modifies this`ensureLocks, this`locks
      ensures key in old(ensureLocks) ==>
                lock == old(ensureLocks)[key] && ensureLocks == old(ensureLocks) && locks == old(locks)
      ensures key !in old(ensureLocks) ==>
                fresh(lock) && lock.gate == 1 && lock.refs == 0
                && ensureLocks == old(ensureLocks)[key := lock] && locks == old(locks) + {lock}
    {
      if key in ensureLocks {
        lock := ensureLocks[key];
      } else {
        lock := new EnsureKeyLock();
        ensureLocks := ensureLocks[key := lock];
        locks := locks + {lock};
      }
    }

    /** The select took the token. */
    method TakeGate(lock: EnsureKeyLock, ghost t: Thread)
      requires Valid() && t in calls && calls[t].pc.Waiting? && calls[t].lock == lock && lock in locks && lock.gate > 0
      modifies this`states, this`ops, this`calls, lock`gate
      ensures Valid() && View() == Take(old(View()), t)
    {
      ghost var before := View();
      lock.gate := lock.gate - 1;
      calls := calls[t := calls[t].(pc := Holding(Entered))];
      assert View().locks == Take(before, t).locks;
      Note(OpTake(t));
    }

    /** The select saw the cancelled context; what is left is to drop the reference. */
    method AbandonWait(ghost t: Thread)
      requires Valid() && t in calls && calls[t].pc.Waiting?
      modifies this`states, this`ops, this`calls
      ensures Valid() && View() == GiveUp(old(View()), t)
    {
      ghost var before := View();
      calls := calls[t := calls[t].(pc := Leaving(Failure(ContextDone)))];
      assert View().locks == before.locks;
      assert View() == GiveUp(before, t);
      Note(OpGiveUp(t));
    }

    /** The unlock function's send: the protocol guarantees that it finds the channel empty. */
    method PutToken(lock: EnsureKeyLock, ghost t: Thread)
      requires Valid() && t in calls && calls[t].pc.Holding? && calls[t].pc.stage.Finished? && calls[t].lock == lock
      requires lock in locks
      modifies this`states, this`ops, this`calls, lock`gate
      ensures Valid() && View() == PutBack(old(View()), t)
      ensures old(lock.gate) == 0 && lock.gate == 1
    {
      ghost var before := View();
      CallFacts(states, ops, before, t);
      assert before.locks[lock].gate == lock.gate;
      lock.gate := lock.gate + 1;
      calls := calls[t := calls[t].(pc := Leaving(calls[t].pc.stage.outcome))];
      assert View().locks == PutBack(before, t).locks;
      Note(OpPutBack(t));
    }

    /** The critical section that both the unlock function and the cancelled wait end with. */
    method DropReference(key: string, lock: EnsureKeyLock, ghost t: Thread)
      requires Valid() && t in calls && calls[t].pc.Leaving? && calls[t].lock == lock && calls[t].req.key == key
      requires lock in locks
      modifies this`states, this`ops, this`calls, this`ensureLocks, lock`refs
      ensures Valid() && View() == Leave(old(View()), t)
    {
      ghost var before := View();
      lock.refs := lock.refs - 1;
      if lock.refs == 0 {
        ensureLocks := ensureLocks - {key};
      }
      calls := calls[t := calls[t].(pc := Returned(calls[t].pc.outcome))];
      assert View().locks == Leave(before, t).locks;
      Note(OpLeave(t));
    }

    /** EnsureSandbox from the lock to its first remote call: the requested id, else the tracked one if any. */
    method ChooseSandbox(req: Request, ghost t: Thread) returns (id: Option<Id>)
      requires Valid() && t in calls && calls[t].req == req && calls[t].pc == Holding(Entered)
      modifies this`states, this`ops, this`calls
      ensures Valid() && View() == Choose(old(View()), t)
      ensures id.None? ==> calls[t].pc.stage.NeedsCreate?
      ensures id == if req.explicit != "" then Some(req.explicit)
                    else if req.key in sandboxByKey then Some(sandboxByKey[req.key]) else None
      ensures id.Some? ==>
                calls[t].pc.stage == if req.explicit != "" then FetchingExplicit else FetchingCached(id.value)
    {
      ghost var before := View();
      if req.explicit != "" {
        id := Some(req.explicit);
        calls := calls[t := calls[t].(pc := Holding(FetchingExplicit))];
      } else if req.key in sandboxByKey {
        id := Some(sandboxByKey[req.key]);
        calls := calls[t := calls[t].(pc := Holding(FetchingCached(sandboxByKey[req.key])))];
      } else {
        id := None;
        calls := calls[t := calls[t].(pc := Holding(NeedsCreate))];
      }
      assert View().locks == before.locks;
      assert View() == Choose(before, t);
      Note(OpChoose(t));
    }

    /** The reply for an explicitly requested sandbox, which is tracked from now on if it exists. */
    method UseExplicit(req: Request, reply: Reply, ghost t: Thread) returns (outcome: Outcome)
      requires Valid() && t in calls && calls[t].req == req && calls[t].pc == Holding(FetchingExplicit)
      modifies this`states, this`ops, this`calls, this`sandboxByKey
      ensures Valid() && View() == Fetched(old(View()), t, reply)
      ensures calls[t].pc == Holding(Finished(outcome))
      ensures if reply.Found? then HandsOut(outcome, req.explicit, reply, false) else outcome == Failure(FetchFailed)
      ensures sandboxByKey == if reply.Found? then old(sandboxByKey)[req.key := req.explicit] else old(sandboxByKey)
    {
      ghost var before := View();
      if reply.Found? {
        sandboxByKey := sandboxByKey[req.key := req.explicit];
        outcome := Success(req.explicit, reply.handle.(created := false));
      } else {
        outcome := Failure(FetchFailed);
      }
      calls := calls[t := calls[t].(pc := Holding(Finished(outcome)))];
      assert View().locks == before.locks;
      assert View() == Fetched(before, t, reply);
      Note(OpFetched(t, reply));
    }

    /** A sandbox has to be created, which needs a policy. */
    method RequirePolicy(req: Request, ghost t: Thread) returns (missing: bool)
      requires Valid() && t in calls && calls[t].req == req && calls[t].pc == Holding(NeedsCreate)
      modifies this`states, this`ops, this`calls
      ensures Valid() && View() == StartCreate(old(View()), t)
      ensures calls[t].pc == Holding(if missing then Finished(Failure(MissingPolicy)) else Creating)
      ensures missing <==> !req.hasPolicy
    {
      ghost var before := View();
      missing := !req.hasPolicy;
      calls := calls[t := calls[t].(pc := Holding(if missing then Finished(Failure(MissingPolicy)) else Creating))];
      assert View().locks == before.locks;
      assert View() == StartCreate(before, t);
      Note(OpStartCreate(t));
    }

    /** The reply for the tracked sandbox: reuse it, fail, or forget it and go on to create. */
    method UseTracked(req: Request, reply: Reply, ghost t: Thread) returns (done: Option<Outcome>)
      requires Valid() && t in calls && calls[t].req == req && calls[t].pc.Holding? && calls[t].pc.stage.FetchingCached?
      modifies this`states, this`ops, this`calls, this`sandboxByKey
      ensures Valid() && View() == Fetched(old(View()), t, reply)
      ensures calls[t].pc.stage == if done.Some? then Finished(done.value) else NeedsCreate
      ensures req.key in old(sandboxByKey)
      ensures done.Some? && HandsOut(done.value, old(sandboxByKey)[req.key], reply, false) <==> Reusable(req, reply)
      ensures done == Some(Failure(FetchFailed)) <==> reply.Unavailable?
      ensures done.None? <==> !Reusable(req, reply) && !reply.Unavailable?
      ensures sandboxByKey == if done.None? then old(sandboxByKey) - {req.key} else old(sandboxByKey)
    {
      ghost var before := View();
      CallFacts(states, ops, before, t);
      if reply.Found? && reply.handle.reusable && (req.backend == "" || reply.handle.backend == req.backend) {
        done := Some(Success(sandboxByKey[req.key], reply.handle.(created := false)));
      } else if reply.Unavailable? {
        done := Some(Failure(FetchFailed));
      } else {
        sandboxByKey := sandboxByKey - {req.key};
        done := None;
      }
      calls := calls[t := calls[t].(pc := Holding(if done.Some? then Finished(done.value) else NeedsCreate))];
      assert View().locks == before.locks;
      assert View() == Fetched(before, t, reply);
      Note(OpFetched(t, reply));
    }

    /** The reply to CreateSandbox; a created sandbox is tracked where none was. */
    method UseCreated(req: Request, reply: Reply, ghost t: Thread) returns (outcome: Outcome)
      requires Valid() && t in calls && calls[t].req == req && calls[t].pc == Holding(Creating)
      modifies this`states, this`ops, this`calls, this`sandboxByKey
      ensures Valid() && View() == Created(old(View()), t, reply)
      ensures calls[t].pc == Holding(Finished(outcome)) && req.key !in old(sandboxByKey)
      ensures if !reply.Found? then outcome == Failure(CreateFailed)
              else if TrimSpace(reply.handle.id) == "" then outcome == Failure(EmptyId)
              else HandsOut(outcome, reply.handle.id, reply, true)
      ensures sandboxByKey == if outcome.Success? then old(sandboxByKey)[req.key := reply.handle.id]
                              else old(sandboxByKey)
    {
      ghost var before := View();
      CallFacts(states, ops, before, t);
      if !reply.Found? {
        outcome := Failure(CreateFailed);
      } else if Blank(reply.handle.id) {
        outcome := Failure(EmptyId);
      } else {
        sandboxByKey := sandboxByKey[req.key := reply.handle.id];
        outcome := Success(reply.handle.id, reply.handle.(created := true));
      }
      calls := calls[t := calls[t].(pc := Holding(Finished(outcome)))];
      assert View().locks == before.locks;
      assert View() == Created(before, t, reply);
      Note(OpCreated(t, reply));
    }
  }
}

/** The client's per-key refcounted lock and the EnsureSandbox calls it serialises: any number of goroutines, each
    cancellable while it waits. `O` is the identity of lock objects. */
module EnsureLock {
  import opened Text

  type Id = string
  type Thread = nat

  datatype Request = Request(key: string, explicit: string, backend: string, hasPolicy: bool)

  datatype Handle = Handle(id: Id, backend: string, reusable: bool, created: bool)

  /** What the server answers to GetSandbox and CreateSandbox. */
  datatype Reply = Found(handle: Handle) | NotFound | Unavailable

  datatype Reason = ContextDone | FetchFailed | MissingPolicy | CreateFailed | EmptyId

  /** `asked` is the sandbox id the client tracks for the key when a call succeeds. */
  datatype Outcome = Success(asked: Id, handle: Handle) | Failure(reason: Reason)

  /** Where a call stands while it holds its key. */
  datatype Stage = Entered | FetchingExplicit | FetchingCached(id: Id) | NeedsCreate | Creating
                 | Finished(outcome: Outcome)

  /** `Leaving` is between the end of the critical region (or the cancelled wait) and the release of the reference. */
  datatype Pc = Waiting | Holding(stage: Stage) | Leaving(outcome: Outcome) | Returned(outcome: Outcome)

  datatype Call<O> = Call(req: Request, lock: O, pc: Pc)

  /** The gate is a channel of capacity one; `gate` is the number of tokens in it. */
  datatype Lock = Lock(gate: nat, refs: int)

  datatype State<O> = State(
    tracked: map<string, Id>,
    entries: map<string, O>,
    locks: map<O, Lock>,
    calls: map<Thread, Call<O>>)

  function Initial<O>(): State<O> {
    State(map[], map[], map[], map[])
  }

  // ---- Steps ----

  /** First critical section: find or make the key's lock and count one more user. `made` is a new object. */
  function Enter<O>(s: State<O>, t: Thread, req: Request, made: O): State<O>
  {
    var known := req.key in s.entries && s.entries[req.key] in s.locks;
    var o := if known then s.entries[req.key] else made;
    var l := if known then s.locks[o] else Lock(1, 0);
    s.(entries := s.entries[req.key := o], locks := s.locks[o := l.(refs := l.refs + 1)],
       calls := s.calls[t := Call(req, o, Waiting)])
  }

  function At<O>(s: State<O>, t: Thread, pc: Pc): State<O>
    requires t in s.calls
  {
    s.(calls := s.calls[t := s.calls[t].(pc := pc)])
  }

  function Take<O>(s: State<O>, t: Thread): State<O>
    requires t in s.calls && s.calls[t].lock in s.locks && s.locks[s.calls[t].lock].gate > 0
  {
    var o := s.calls[t].lock;
    At(s, t, Holding(Entered)).(locks := s.locks[o := s.locks[o].(gate := s.locks[o].gate - 1)])
  }

  function GiveUp<O>(s: State<O>, t: Thread): State<O>
    requires t in s.calls
  {
    At(s, t, Leaving(Failure(ContextDone)))
  }

  /** The deferred unlock puts the token back. */
  function PutBack<O>(s: State<O>, t: Thread): State<O>
    requires t in s.calls && s.calls[t].lock in s.locks && s.calls[t].pc.Holding? && s.calls[t].pc.stage.Finished?
  {
    var o := s.calls[t].lock;
    At(s, t, Leaving(s.calls[t].pc.stage.outcome)).(locks := s.locks[o := s.locks[o].(gate := s.locks[o].gate + 1)])
  }

  /** Last critical section: drop the reference, and the key's entry with the last one. */
  function Leave<O>(s: State<O>, t: Thread): State<O>
    requires t in s.calls && s.calls[t].lock in s.locks && s.calls[t].pc.Leaving?
  {
    var o, l := s.calls[t].lock, s.locks[s.calls[t].lock];
    At(s, t, Returned(s.calls[t].pc.outcome)).(
      locks := s.locks[o := l.(refs := l.refs - 1)],
      entries := if l.refs - 1 == 0 then s.entries - {s.calls[t].req.key} else s.entries)
  }

  /** From the acquired lock to the first remote call: an explicit id wins, then the tracked one. */
  function Choose<O>(s: State<O>, t: Thread): State<O>
    requires t in s.calls
  {
    var req := s.calls[t].req;
    if req.explicit != "" then At(s, t, Holding(FetchingExplicit))
    else if req.key in s.tracked then At(s, t, Holding(FetchingCached(s.tracked[req.key])))
    else At(s, t, Holding(NeedsCreate))
  }

  function Fetched<O>(s: State<O>, t: Thread, reply: Reply): State<O>
    requires t in s.calls && s.calls[t].pc.Holding?
    requires s.calls[t].pc.stage.FetchingExplicit? || s.calls[t].pc.stage.FetchingCached?
  {
    var req := s.calls[t].req;
    match s.calls[t].pc.stage
    case FetchingExplicit =>
      if reply.Found? then
        At(s, t, Holding(Finished(Success(req.explicit, reply.handle.(created := false))))).(
          tracked := s.tracked[req.key := req.explicit])
      else At(s, t, Holding(Finished(Failure(FetchFailed))))
    case FetchingCached(id) =>
      if reply.Found? && reply.handle.reusable && (req.backend == "" || reply.handle.backend == req.backend) then
        At(s, t, Holding(Finished(Success(id, reply.handle.(created := false)))))
      else if reply.Unavailable? then At(s, t, Holding(Finished(Failure(FetchFailed))))
      else At(s, t, Holding(NeedsCreate)).(tracked := s.tracked - {req.key})
  }

  function StartCreate<O>(s: State<O>, t: Thread): State<O>
    requires t in s.calls
  {
    At(s, t, Holding(if s.calls[t].req.hasPolicy then Creating else Finished(Failure(MissingPolicy))))
  }

  function Created<O>(s: State<O>, t: Thread, reply: Reply): State<O>
    requires t in s.calls
  {
    if !reply.Found? then At(s, t, Holding(Finished(Failure(CreateFailed))))
    else if Blank(reply.handle.id) then At(s, t, Holding(Finished(Failure(EmptyId))))
    else
      At(s, t, Holding(Finished(Success(reply.handle.id, reply.handle.(created := true))))).(
        tracked := s.tracked[s.calls[t].req.key := reply.handle.id])
  }

  datatype Op<O> =
    | OpEnter(t: Thread, key: string, explicit: string, backend: string, hasPolicy: bool, made: O)
    | OpTake(t: Thread)
    | OpGiveUp(t: Thread)
    | OpChoose(t: Thread)
    | OpFetched(t: Thread, reply: Reply)
    | OpStartCreate(t: Thread)
    | OpCreated(t: Thread, reply: Reply)
    | OpPutBack(t: Thread)
    | OpLeave(t: Thread)

  predicate InStage<O>(s: State<O>, t: Thread) {
    t in s.calls && s.calls[t].pc.Holding?
  }

  /** A goroutine's next step, and for the gate: a receive needs a token, a send needs room. */
  predicate Enabled<O>(s: State<O>, op: Op<O>) {
    match op
    case OpEnter(t, key, _, _, _, made) =>
      t !in s.calls && (TrimSpace(key) in s.entries || made !in s.locks)
    case OpTake(t) =>
      t in s.calls && s.calls[t].pc.Waiting? && s.calls[t].lock in s.locks && s.locks[s.calls[t].lock].gate > 0
    case OpGiveUp(t) => t in s.calls && s.calls[t].pc.Waiting?
    case OpChoose(t) => InStage(s, t) && s.calls[t].pc.stage.Entered?
    case OpFetched(t, _) =>
      InStage(s, t) && (s.calls[t].pc.stage.FetchingExplicit? || s.calls[t].pc.stage.FetchingCached?)
    case OpStartCreate(t) => InStage(s, t) && s.calls[t].pc.stage.NeedsCreate?
    case OpCreated(t, _) => InStage(s, t) && s.calls[t].pc.stage.Creating?
    case OpPutBack(t) =>
      InStage(s, t) && s.calls[t].pc.stage.Finished? && s.calls[t].lock in s.locks && s.locks[s.calls[t].lock].gate < 1
    case OpLeave(t) => t in s.calls && s.calls[t].pc.Leaving? && s.calls[t].lock in s.locks
  }

  /** EnsureSandbox up to the lock: keys, ids and backends are trimmed, and a blank key is refused at once. */
  function Begin<O>(s: State<O>, t: Thread, key: string, explicit: string, backend: string, hasPolicy: bool,
                    made: O): State<O>
  {
    var req := Request(TrimSpace(key), TrimSpace(explicit), TrimSpace(backend), hasPolicy);
    if req.key == "" then s else Enter(s, t, req, made)
  }

  function Apply<O>(s: State<O>, op: Op<O>): State<O>
    requires Enabled(s, op)
  {
    match op
    case OpEnter(t, key, explicit, backend, hasPolicy, made) => Begin(s, t, key, explicit, backend, hasPolicy, made)
    case OpTake(t) => Take(s, t)
    case OpGiveUp(t) => GiveUp(s, t)
    case OpChoose(t) => Choose(s, t)
    case OpFetched(t, reply) => Fetched(s, t, reply)
    case OpStartCreate(t) => StartCreate(s, t)
    case OpCreated(t, reply) => Created(s, t, reply)
    case OpPutBack(t) => PutBack(s, t)
    case OpLeave(t) => Leave(s, t)
  }

  // ---- The invariant ----

  /** The call counts in its lock's `refs`. */
  predicate Uses<O>(c: Call<O>) {
    !c.pc.Returned?
  }

  ghost function Users<O>(calls: map<Thread, Call<O>>, o: O): set<Thread> {
    set t | t in calls && Uses(calls[t]) && calls[t].lock == o
  }

  ghost function Holders<O>(calls: map<Thread, Call<O>>, o: O): set<Thread> {
    set t | t in calls && calls[t].pc.Holding? && calls[t].lock == o
  }

  ghost predicate CallOk<O>(s: State<O>, c: Call<O>) {
    Uses(c) ==> c.lock in s.locks && c.req.key in s.entries && s.entries[c.req.key] == c.lock
  }

  /** What a holder knows about the sandbox tracked for its key. */
  predicate StageOk(tracked: map<string, Id>, key: string, stage: Stage) {
    match stage
    case FetchingCached(id) => key in tracked && tracked[key] == id
    case NeedsCreate => key !in tracked
    case Creating => key !in tracked
    case Finished(Success(asked, _)) => key in tracked && tracked[key] == asked
    case _ => true
  }

  ghost predicate LockOk<O>(s: State<O>, o: O)
    requires o in s.locks
  {
    s.locks[o].refs == |Users(s.calls, o)| && s.locks[o].gate + |Holders(s.calls, o)| == 1
  }

  ghost predicate Inv<O>(s: State<O>) {
    && (forall t :: t in s.calls ==> CallOk(s, s.calls[t]))
    && (forall t :: t in s.calls && s.calls[t].pc.Holding? ==>
        StageOk(s.tracked, s.calls[t].req.key, s.calls[t].pc.stage))
    && (forall k :: k in s.entries ==> s.entries[k] in s.locks && s.locks[s.entries[k]].refs > 0)
    && (forall j, k :: j in s.entries && k in s.entries && s.entries[j] == s.entries[k] ==> j == k)
    && (forall o :: o in s.locks ==> LockOk(s, o))
  }

  lemma TwoHolders<O>(calls: map<Thread, Call<O>>, t: Thread, u: Thread)
    requires t in calls && u in calls && calls[t].pc.Holding? && calls[u].pc.Holding? && calls[t].lock == calls[u].lock
    requires |Holders(calls, calls[t].lock)| <= 1
    ensures t == u
  {
    var hs := Holders(calls, calls[t].lock);
    assert t in hs && u in hs;
    assert |hs - {t}| == |hs| - 1;
    assert hs - {t} == {};
  }

  /** Mutual exclusion, from the counts: two holders of one key are the same goroutine. */
  lemma SameKeySameHolder<O>(s: State<O>, t: Thread, u: Thread)
    requires Inv(s) && t in s.calls && u in s.calls && s.calls[t].pc.Holding? && s.calls[u].pc.Holding?
    requires s.calls[t].req.key == s.calls[u].req.key
    ensures t == u
  {
    assert CallOk(s, s.calls[t]) && CallOk(s, s.calls[u]);
    assert LockOk(s, s.calls[t].lock);
    TwoHolders(s.calls, t, u);
  }

  /** How the counts move when goroutine `t` moves. */
  lemma CountsMove<O>(calls: map<Thread, Call<O>>, t: Thread, c: Call<O>, o: O)
    ensures var calls', was := calls[t := c], t in calls && calls[t].lock == o;
            && |Users(calls', o)| == |Users(calls, o)| - (if was && Uses(calls[t]) then 1 else 0)
                                     + (if c.lock == o && Uses(c) then 1 else 0)
            && |Holders(calls', o)| == |Holders(calls, o)| - (if was && calls[t].pc.Holding? then 1 else 0)
                                       + (if c.lock == o && c.pc.Holding? then 1 else 0)
  {
    var calls' := calls[t := c];
    SizesDiffer(Users(calls, o), Users(calls', o), t);
    SizesDiffer(Holders(calls, o), Holders(calls', o), t);
  }

  lemma SizesDiffer<T>(a: set<T>, b: set<T>, x: T)
    requires forall y :: y != x ==> (y in a <==> y in b)
    ensures |b| == |a| - (if x in a then 1 else 0) + (if x in b then 1 else 0)
  {
    assert a - {x} == b - {x};
    assert |a| == |a - {x}| + if x in a then 1 else 0;
    assert |b| == |b - {x}| + if x in b then 1 else 0;
  }

  lemma NobodyUses<O>(calls: map<Thread, Call<O>>, o: O)
    requires forall t :: t in calls && Uses(calls[t]) ==> calls[t].lock != o
    ensures Users(calls, o) == {} && Holders(calls, o) == {}
  {
  }

  lemma EnterLocks<O>(s: State<O>, t: Thread, req: Request, made: O, o: O)
    requires Inv(s) && t !in s.calls && (req.key !in s.entries ==> made !in s.locks)
    requires o in Enter(s, t, req, made).locks
    ensures LockOk(Enter(s, t, req, made), o)
  {
    var s' := Enter(s, t, req, made);
    CountsMove(s.calls, t, s'.calls[t], o);
    if o in s.locks {
      assert LockOk(s, o);
    } else {
      forall u | u in s.calls && Uses(s.calls[u]) ensures s.calls[u].lock != o {
        assert CallOk(s, s.calls[u]);
      }
      NobodyUses(s.calls, o);
    }
  }

  lemma EnterInv<O>(s: State<O>, t: Thread, req: Request, made: O)
    requires Inv(s) && t !in s.calls && (req.key !in s.entries ==> made !in s.locks)
    ensures Inv(Enter(s, t, req, made))
  {
    var s' := Enter(s, t, req, made);
    forall o | o in s'.locks ensures LockOk(s', o) {
      EnterLocks(s, t, req, made, o);
    }
    forall u | u in s'.calls ensures CallOk(s', s'.calls[u]) {
      if u != t {
        assert CallOk(s, s.calls[u]);
      }
    }
  }

  /** A holder's move inside its critical region: only its own stage and its own key's tracked sandbox change. */
  ghost predicate HolderMove<O>(s: State<O>, s': State<O>, t: Thread) {
    && InStage(s, t) && s'.entries == s.entries && s'.locks == s.locks
    && s'.calls.Keys == s.calls.Keys && s'.calls == s.calls[t := s'.calls[t]]
    && s'.calls[t].pc.Holding? && s'.calls[t] == s.calls[t].(pc := s'.calls[t].pc)
    && (forall k :: k != s.calls[t].req.key ==>
        (k in s'.tracked <==> k in s.tracked) && (k in s.tracked ==> s'.tracked[k] == s.tracked[k]))
    && StageOk(s'.tracked, s.calls[t].req.key, s'.calls[t].pc.stage)
  }

  lemma HolderMoveInv<O>(s: State<O>, s': State<O>, t: Thread)
    requires Inv(s) && HolderMove(s, s', t)
    ensures Inv(s')
  {
    forall o | o in s'.locks ensures LockOk(s', o) {
      assert LockOk(s, o);
      CountsMove(s.calls, t, s'.calls[t], o);
    }
    forall u | u in s'.calls
      ensures CallOk(s', s'.calls[u])
      ensures s'.calls[u].pc.Holding? ==> StageOk(s'.tracked, s'.calls[u].req.key, s'.calls[u].pc.stage)
    {
      assert CallOk(s, s.calls[u]);
      if u != t && s.calls[u].pc.Holding? && s.calls[u].req.key == s.calls[t].req.key {
        SameKeySameHolder(s, t, u);
      }
    }
  }

  /** Taking the token, giving up and putting the token back: the gate and the caller's position change together. */
  lemma GateInv<O>(s: State<O>, s': State<O>, t: Thread, gate: nat, pc: Pc)
    requires Inv(s) && t in s.calls && Uses(s.calls[t]) && !pc.Returned? && (pc.Holding? ==> pc.stage.Entered?)
    requires s.calls[t].lock in s.locks
    requires s' == At(s, t, pc).(locks := s.locks[s.calls[t].lock := s.locks[s.calls[t].lock].(gate := gate)])
    requires gate - s.locks[s.calls[t].lock].gate
               == (if s.calls[t].pc.Holding? then 1 else 0) - (if pc.Holding? then 1 else 0)
    ensures Inv(s')
  {
    forall o | o in s'.locks ensures LockOk(s', o) {
      assert LockOk(s, o);
      CountsMove(s.calls, t, s'.calls[t], o);
    }
    forall u | u in s'.calls ensures CallOk(s', s'.calls[u]) {
      assert CallOk(s, s.calls[u]);
    }
  }

  lemma AnotherUser<O>(s: State<O>, t: Thread, u: Thread)
    requires Inv(s) && t in s.calls && u in s.calls && t != u && Uses(s.calls[t]) && Uses(s.calls[u])
    requires s.calls[t].lock == s.calls[u].lock
    ensures s.calls[t].lock in s.locks && s.locks[s.calls[t].lock].refs >= 2
  {
    var us := Users(s.calls, s.calls[t].lock);
    assert CallOk(s, s.calls[t]) && LockOk(s, s.calls[t].lock);
    assert |us - {t}| == |us| - 1;
    assert u in us - {t};
  }

  lemma LeaveInv<O>(s: State<O>, t: Thread)
    requires Inv(s) && Enabled(s, OpLeave(t))
    ensures Inv(Leave(s, t))
  {
    var s', lock := Leave(s, t), s.calls[t].lock;
    assert CallOk(s, s.calls[t]);
    forall o | o in s'.locks ensures LockOk(s', o) {
      assert LockOk(s, o);
      CountsMove(s.calls, t, s'.calls[t], o);
    }
    forall u | u in s'.calls ensures CallOk(s', s'.calls[u]) {
      assert CallOk(s, s.calls[u]);
      if u != t && Uses(s.calls[u]) && s.calls[u].lock == lock {
        AnotherUser(s, t, u);
      }
    }
  }

  lemma FetchedMoves<O>(s: State<O>, t: Thread, reply: Reply)
    requires Inv(s) && Enabled(s, OpFetched(t, reply))
    ensures HolderMove(s, Fetched(s, t, reply), t)
  {
  }

  lemma CreatedMoves<O>(s: State<O>, t: Thread, reply: Reply)
    requires Inv(s) && Enabled(s, OpCreated(t, reply))
    ensures HolderMove(s, Created(s, t, reply), t)
  {
  }

  lemma ChooseMoves<O>(s: State<O>, t: Thread)
    requires Inv(s) && InStage(s, t)
    ensures s.calls[t].pc.stage.Entered? ==> HolderMove(s, Choose(s, t), t)
    ensures s.calls[t].pc.stage.NeedsCreate? ==> HolderMove(s, StartCreate(s, t), t)
  {
  }

  lemma {:induction false} HolderStepInv<O>(s: State<O>, op: Op<O>)
    requires Inv(s) && Enabled(s, op) && (op.OpChoose? || op.OpFetched? || op.OpStartCreate? || op.OpCreated?)
    ensures HolderMove(s, Apply(s, op), op.t) && Inv(Apply(s, op))
  {
    match op {
      case OpFetched(t, reply) => FetchedMoves(s, t, reply);
      case OpCreated(t, reply) => CreatedMoves(s, t, reply);
      case _ => ChooseMoves(s, op.t);
    }
    HolderMoveInv(s, Apply(s, op), op.t);
  }

  /** Every step keeps the invariant. */
  lemma StepInv<O>(s: State<O>, op: Op<O>)
    requires Inv(s) && Enabled(s, op)
    ensures Inv(Apply(s, op))
  {
    match op
    case OpEnter(t, key, explicit, backend, hasPolicy, made) =>
      var req := Request(TrimSpace(key), TrimSpace(explicit), TrimSpace(backend), hasPolicy);
      EnterInv(s, t, req, made);
    case OpTake(t) => GateInv(s, Take(s, t), t, s.locks[s.calls[t].lock].gate - 1, Holding(Entered));
    case OpGiveUp(t) =>
      assert CallOk(s, s.calls[t]);
      var o := s.calls[t].lock;
      assert s.locks[o := s.locks[o].(gate := s.locks[o].gate)] == s.locks;
      GateInv(s, GiveUp(s, t), t, s.locks[o].gate, Leaving(Failure(ContextDone)));
    case OpPutBack(t) => GateInv(s, PutBack(s, t), t, s.locks[s.calls[t].lock].gate + 1,
                                 Leaving(s.calls[t].pc.stage.outcome));
    case OpLeave(t) => LeaveInv(s, t);
    case _ => HolderStepInv(s, op);
  }

  // ---- Runs ----

  ghost predicate StepAt<O>(states: seq<State<O>>, ops: seq<Op<O>>, i: nat)
    requires |states| == |ops| + 1 && i < |ops|
  {
    Enabled(states[i], ops[i]) && states[i + 1] == Apply(states[i], ops[i])
  }

  /** Any finite interleaving of calls, cancellations included. */
  ghost predicate IsRun<O>(states: seq<State<O>>, ops: seq<Op<O>>) {
    && |states| == |ops| + 1 && states[0] == Initial()
    && forall i :: 0 <= i < |ops| ==> StepAt(states, ops, i)
  }

  lemma {:induction false} RunInv<O>(states: seq<State<O>>, ops: seq<Op<O>>, n: nat)
    requires IsRun(states, ops) && n < |states|
    ensures Inv(states[n])
  {
    if n > 0 {
      RunInv(states, ops, n - 1);
      assert StepAt(states, ops, n - 1);
      StepInv(states[n - 1], ops[n - 1]);
    }
  }

  /** A run goes on with any enabled step. */
  lemma ExtendRun<O>(states: seq<State<O>>, ops: seq<Op<O>>, op: Op<O>)
    requires IsRun(states, ops) && Enabled(states[|ops|], op)
    ensures IsRun(states + [Apply(states[|ops|], op)], ops + [op])
  {
    var states', ops' := states + [Apply(states[|ops|], op)], ops + [op];
    forall i | 0 <= i < |ops'| ensures StepAt(states', ops', i) {
      assert i < |ops| ==> StepAt(states, ops, i);
    }
  }

  /** At most one goroutine holds a key; `refs` is the number of goroutines using the lock; the key's entry is that
      same object for as long as it is used; tokens plus holders is one. */
  lemma LockProtocol<O>(states: seq<State<O>>, ops: seq<Op<O>>, n: nat)
    requires IsRun(states, ops) && n < |states|
    ensures var s := states[n];
            && (forall t, u :: InStage(s, t) && InStage(s, u) && s.calls[t].req.key == s.calls[u].req.key ==> t == u)
            && (forall o :: o in s.locks ==> s.locks[o].refs == |Users(s.calls, o)|
                                             && s.locks[o].gate + |Holders(s.calls, o)| == 1)
            && (forall t :: t in s.calls && Uses(s.calls[t]) ==>
                  s.calls[t].req.key in s.entries && s.entries[s.calls[t].req.key] == s.calls[t].lock)
  {
    var s := states[n];
    RunInv(states, ops, n);
    forall t, u | InStage(s, t) && InStage(s, u) && s.calls[t].req.key == s.calls[u].req.key ensures t == u {
      SameKeySameHolder(s, t, u);
    }
    forall o | o in s.locks
      ensures s.locks[o].refs == |Users(s.calls, o)| && s.locks[o].gate + |Holders(s.calls, o)| == 1
    {
      assert LockOk(s, o);
    }
    forall t | t in s.calls && Uses(s.calls[t])
      ensures s.calls[t].req.key in s.entries && s.entries[s.calls[t].req.key] == s.calls[t].lock
    {
      assert CallOk(s, s.calls[t]);
    }
  }

  /** Nobody gets stuck on the lock itself: a finished holder's send always has room, and whenever a goroutine waits
      for a key that nobody holds, the token is there to take. */
  lemma NeverStuck<O>(states: seq<State<O>>, ops: seq<Op<O>>, n: nat, t: Thread)
    requires IsRun(states, ops) && n < |states| && t in states[n].calls
    ensures var s := states[n];
            && (s.calls[t].pc.Holding? && s.calls[t].pc.stage.Finished? ==> Enabled(s, OpPutBack(t)))
            && (s.calls[t].pc.Leaving? ==> Enabled(s, OpLeave(t)))
            && (s.calls[t].pc.Waiting? && (forall u :: InStage(s, u) ==> s.calls[u].req.key != s.calls[t].req.key) ==>
                  Enabled(s, OpTake(t)))
  {
    var s := states[n];
    RunInv(states, ops, n);
    var o := s.calls[t].lock;
    assert CallOk(s, s.calls[t]) && (Uses(s.calls[t]) ==> LockOk(s, o));
    if s.calls[t].pc.Holding? {
      assert t in Holders(s.calls, o);
    }
    if s.calls[t].pc.Waiting? && forall u :: InStage(s, u) ==> s.calls[u].req.key != s.calls[t].req.key {
      forall u | u in s.calls ensures u !in Holders(s.calls, o) {
        assert InStage(s, u) ==> CallOk(s, s.calls[u]);
      }
      assert Holders(s.calls, o) == {};
    }
  }

  /** The lock table has an entry for a key exactly while some call on that key is under way. */
  lemma IdleKeysLeaveNoEntry<O>(states: seq<State<O>>, ops: seq<Op<O>>, n: nat, key: string)
    requires IsRun(states, ops) && n < |states|
    ensures var s := states[n];
            key in s.entries <==> exists t :: t in s.calls && Uses(s.calls[t]) && s.calls[t].req.key == key
  {
    var s := states[n];
    RunInv(states, ops, n);
    if key in s.entries {
      var o := s.entries[key];
      assert LockOk(s, o);
      assert Users(s.calls, o) != {};
      var t :| t in Users(s.calls, o);
      assert CallOk(s, s.calls[t]);
    }
    if t :| t in s.calls && Uses(s.calls[t]) && s.calls[t].req.key == key {
      assert CallOk(s, s.calls[t]);
    }
  }

  /** The goroutine's CreateSandbox call is in flight. */
  predicate InCreate<O>(s: State<O>, t: Thread) {
    InStage(s, t) && s.calls[t].pc.stage.Creating?
  }

  /** Per key at most one CreateSandbox call is in flight, it is made only while no sandbox is tracked for the key, and
      so recording the created sandbox never overwrites a tracked one. */
  lemma OneCreatePerKey<O>(states: seq<State<O>>, ops: seq<Op<O>>, n: nat)
    requires IsRun(states, ops) && n < |states|
    ensures var s := states[n];
            && (forall t, u :: InCreate(s, t) && InCreate(s, u) && s.calls[t].req.key == s.calls[u].req.key ==> t == u)
            && (forall t :: InCreate(s, t) ==> s.calls[t].req.key !in s.tracked)
  {
    var s := states[n];
    LockProtocol(states, ops, n);
    RunInv(states, ops, n);
  }

  /** While a call holds its key, no step of another goroutine touches the sandbox tracked for that key: a call's
      lookup, remote calls and record act as one. A call that ends well leaves its answer tracked until it lets go. */
  lemma HolderOwnsTracking<O>(states: seq<State<O>>, ops: seq<Op<O>>, n: nat, t: Thread)
    requires IsRun(states, ops) && n < |ops| && InStage(states[n], t)
    ensures var s, s' := states[n], states[n + 1];
            var key := s.calls[t].req.key;
            && (ops[n].t != t ==>
                (key in s'.tracked <==> key in s.tracked) && (key in s.tracked ==> s'.tracked[key] == s.tracked[key]))
            && (s.calls[t].pc.stage.Finished? && s.calls[t].pc.stage.outcome.Success? ==>
                  key in s.tracked && s.tracked[key] == s.calls[t].pc.stage.outcome.asked)
  {
    var s, op := states[n], ops[n];
    RunInv(states, ops, n);
    assert StepAt(states, ops, n);
    if op.t != t && (op.OpChoose? || op.OpFetched? || op.OpStartCreate? || op.OpCreated?) {
      HolderStepInv(s, op);
      if s.calls[op.t].req.key == s.calls[t].req.key {
        SameKeySameHolder(s, t, op.t);
      }
    }
  }
}

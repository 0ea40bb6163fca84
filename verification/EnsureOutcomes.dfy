/** What EnsureSandbox answers: every answer of a call, traced back to the reply it comes from. */
module EnsureOutcomes {
  import opened Seqs
  import opened Text
  import opened EnsureLock

  /** The tracked sandbox can be handed out again: it is there, ready, and on the backend that was asked for, if one
      was. */
  predicate Reusable(req: Request, reply: Reply) {
    && reply.Found? && reply.handle.reusable
    && (req.backend == "" || reply.handle.backend == req.backend)
  }

  function StageOf<O>(s: State<O>, t: Thread): Stage
    requires InStage(s, t)
  {
    s.calls[t].pc.stage
  }

  /** The outcome hands out what the server replied, tracked as `id` and marked as just created or not. */
  predicate HandsOut(outcome: Outcome, id: Id, reply: Reply, created: bool) {
    reply.Found?
        && outcome == Success(id, Handle(reply.handle.id, reply.handle.backend, reply.handle.reusable, created))
  }

  predicate Ends(stage: Stage, id: Id, reply: Reply, created: bool) {
    stage.Finished? && HandsOut(stage.outcome, id, reply, created)
  }

  /** The reply for the tracked sandbox, in every run: it is handed out exactly when it is reusable, the call fails
      exactly when the server cannot be asked, and otherwise the sandbox is forgotten and a new one is needed. */
  lemma TrackedReply<O>(states: seq<State<O>>, ops: seq<Op<O>>, i: nat)
    requires IsRun(states, ops) && i < |ops| && ops[i].OpFetched?
    requires InStage(states[i], ops[i].t) && StageOf(states[i], ops[i].t).FetchingCached?
    ensures var s, s', t, reply := states[i], states[i + 1], ops[i].t, ops[i].reply;
            var req, id := s.calls[t].req, StageOf(s, t).id;
            && req.explicit == "" && req.key in s.tracked && s.tracked[req.key] == id && InStage(s', t)
            && (Ends(StageOf(s', t), id, reply, false) <==> Reusable(req, reply))
            && (StageOf(s', t) == Finished(Failure(FetchFailed)) <==> reply.Unavailable?)
            && (StageOf(s', t) == NeedsCreate <==> !Reusable(req, reply) && !reply.Unavailable?)
            && s'.tracked == if StageOf(s', t) == NeedsCreate then s.tracked - {req.key} else s.tracked
  {
    RunInv(states, ops, i);
    ChosenInv(states, ops, i, ops[i].t);
    assert StepAt(states, ops, i);
  }

  /** The reply for an explicitly requested sandbox: it is handed out and tracked exactly when it exists, whatever its
      status and backend. */
  lemma ExplicitReply<O>(states: seq<State<O>>, ops: seq<Op<O>>, i: nat)
    requires IsRun(states, ops) && i < |ops| && ops[i].OpFetched?
    requires InStage(states[i], ops[i].t) && StageOf(states[i], ops[i].t).FetchingExplicit?
    ensures var s, s', t, reply := states[i], states[i + 1], ops[i].t, ops[i].reply;
            var req := s.calls[t].req;
            && req.explicit != "" && InStage(s', t)
            && (Ends(StageOf(s', t), req.explicit, reply, false) <==> reply.Found?)
            && (StageOf(s', t) == Finished(Failure(FetchFailed)) <==> !reply.Found?)
            && s'.tracked == if reply.Found? then s.tracked[req.key := req.explicit] else s.tracked
  {
    ChosenInv(states, ops, i, ops[i].t);
    assert StepAt(states, ops, i);
  }

  /** The reply to CreateSandbox: a sandbox with an id is handed out as created and tracked where nothing was. */
  lemma CreatedReply<O>(states: seq<State<O>>, ops: seq<Op<O>>, i: nat)
    requires IsRun(states, ops) && i < |ops| && ops[i].OpCreated?
    ensures var s, s', t, reply := states[i], states[i + 1], ops[i].t, ops[i].reply;
            && InStage(s, t) && InStage(s', t)
            && var req := s.calls[t].req;
            && req.hasPolicy && req.key !in s.tracked
            && (StageOf(s', t) == Finished(Failure(CreateFailed)) <==> !reply.Found?)
            && (StageOf(s', t) == Finished(Failure(EmptyId)) <==> reply.Found? && TrimSpace(reply.handle.id) == "")
            && (reply.Found? && TrimSpace(reply.handle.id) != "" ==>
                  Ends(StageOf(s', t), reply.handle.id, reply, true)
                      && s'.tracked == s.tracked[req.key := reply.handle.id])
            && (!reply.Found? || TrimSpace(reply.handle.id) == "" ==> s'.tracked == s.tracked)
  {
    assert StepAt(states, ops, i);
    RunInv(states, ops, i);
    ChosenInv(states, ops, i, ops[i].t);
  }

  /** What a call in its critical region has decided so far agrees with its request. */
  predicate Chosen(req: Request, stage: Stage) {
    && (stage.FetchingExplicit? ==> req.explicit != "")
    && (stage.FetchingCached? || stage.NeedsCreate? || stage.Creating? ==> req.explicit == "")
    && (stage.Creating? ==> req.hasPolicy)
  }

  lemma {:induction false} ChosenInv<O>(states: seq<State<O>>, ops: seq<Op<O>>, n: nat, t: Thread)
    requires IsRun(states, ops) && n < |states| && InStage(states[n], t)
    ensures Chosen(states[n].calls[t].req, StageOf(states[n], t))
  {
    assert n > 0;
    assert StepAt(states, ops, n - 1);
    if InStage(states[n - 1], t) {
      ChosenInv(states, ops, n - 1, t);
    }
    ChosenStep(states[n - 1], ops[n - 1], t);
  }

  lemma ChosenStep<O>(s: State<O>, op: Op<O>, t: Thread)
    requires Enabled(s, op) && InStage(Apply(s, op), t)
    requires InStage(s, t) ==> Chosen(s.calls[t].req, StageOf(s, t))
    ensures Chosen(Apply(s, op).calls[t].req, StageOf(Apply(s, op), t))
  {
    OthersStay(s, op, t);
  }

  lemma FetchedOthersStay<O>(s: State<O>, op: Op<O>, t: Thread)
    requires Enabled(s, op) && t in Apply(s, op).calls && op.OpFetched?
    ensures t in s.calls && (op.t != t ==> Apply(s, op).calls[t] == s.calls[t])
    ensures Apply(s, op).calls[t].req == s.calls[t].req
  {
  }

  lemma CreatedOthersStay<O>(s: State<O>, op: Op<O>, t: Thread)
    requires Enabled(s, op) && t in Apply(s, op).calls && (op.OpStartCreate? || op.OpCreated?)
    ensures t in s.calls && (op.t != t ==> Apply(s, op).calls[t] == s.calls[t])
    ensures Apply(s, op).calls[t].req == s.calls[t].req
  {
  }

  /** A step moves only its own call, and never changes a request. */
  lemma OthersStay<O>(s: State<O>, op: Op<O>, t: Thread)
    requires Enabled(s, op) && t in Apply(s, op).calls
    ensures op.t != t ==> t in s.calls && Apply(s, op).calls[t] == s.calls[t]
    ensures t in s.calls ==> Apply(s, op).calls[t].req == s.calls[t].req
    ensures t !in s.calls ==>
              && op.OpEnter? && op.t == t && TrimSpace(op.key) != ""
              && Apply(s, op).calls[t].req
                 == Request(TrimSpace(op.key), TrimSpace(op.explicit), TrimSpace(op.backend), op.hasPolicy)
  {
    if op.OpFetched? {
      FetchedOthersStay(s, op, t);
    } else if op.OpStartCreate? || op.OpCreated? {
      CreatedOthersStay(s, op, t);
    }
  }

  /** Every call works on the request it was made with, trimmed; a blank key never gets that far. */
  lemma {:induction false} RequestsAreKept<O>(states: seq<State<O>>, ops: seq<Op<O>>, n: nat, t: Thread)
    returns (j: nat)
    requires IsRun(states, ops) && n < |states| && t in states[n].calls
    ensures j < n && ops[j].OpEnter? && ops[j].t == t && !Blank(ops[j].key)
    ensures states[n].calls[t].req
              == Request(TrimSpace(ops[j].key), TrimSpace(ops[j].explicit), TrimSpace(ops[j].backend), ops[j].hasPolicy)
  {
    assert n > 0;
    assert StepAt(states, ops, n - 1);
    OthersStay(states[n - 1], ops[n - 1], t);
    if t in states[n - 1].calls {
      j := RequestsAreKept(states, ops, n - 1, t);
    } else {
      j := n - 1;
    }
  }

  // ---- Where an answer comes from ----

  function OutcomeOf(pc: Pc): Option<Outcome> {
    match pc
    case Holding(Finished(outcome)) => Some(outcome)
    case Leaving(outcome) => Some(outcome)
    case Returned(outcome) => Some(outcome)
    case _ => None
  }

  /** The `j`-th step, by the call itself, gave it this outcome. */
  ghost predicate Origin<O>(states: seq<State<O>>, ops: seq<Op<O>>, j: nat, t: Thread, req: Request, outcome: Outcome)
    requires |states| == |ops| + 1 && j < |ops|
  {
    && ops[j].t == t && t in states[j].calls && states[j].calls[t].req == req
    && match outcome
       case Success(id, _) =>
         if ops[j].OpCreated? then HandsOut(outcome, id, ops[j].reply, true) && id == ops[j].reply.handle.id
         else
           && ops[j].OpFetched? && HandsOut(outcome, id, ops[j].reply, false)
           && (if req.explicit != "" then id == req.explicit
               else Reusable(req, ops[j].reply) && req.key in states[j].tracked && states[j].tracked[req.key] == id)
       case Failure(ContextDone) => ops[j].OpGiveUp?
       case Failure(FetchFailed) =>
         ops[j].OpFetched? && if req.explicit != "" then !ops[j].reply.Found? else ops[j].reply.Unavailable?
       case Failure(MissingPolicy) => ops[j].OpStartCreate? && !req.hasPolicy && req.explicit == ""
       case Failure(CreateFailed) => ops[j].OpCreated? && !ops[j].reply.Found?
       case Failure(EmptyId) => ops[j].OpCreated? && ops[j].reply.Found? && Blank(ops[j].reply.handle.id)
  }

  /** The step at which a call gets its outcome is the outcome's origin. */
  lemma DecidedHere<O>(states: seq<State<O>>, ops: seq<Op<O>>, j: nat, t: Thread)
    requires IsRun(states, ops) && j < |ops| && t in states[j + 1].calls
    requires OutcomeOf(states[j + 1].calls[t].pc).Some?
    requires t !in states[j].calls || OutcomeOf(states[j].calls[t].pc) != OutcomeOf(states[j + 1].calls[t].pc)
    ensures Origin(states, ops, j, t, states[j + 1].calls[t].req, OutcomeOf(states[j + 1].calls[t].pc).value)
  {
    assert StepAt(states, ops, j);
    var op := ops[j];
    if op.OpFetched? && StageOf(states[j], op.t).FetchingCached? {
      TrackedReply(states, ops, j);
    } else if op.OpFetched? {
      ExplicitReply(states, ops, j);
    } else if op.OpCreated? {
      CreatedReply(states, ops, j);
    } else if op.OpStartCreate? {
      ChosenInv(states, ops, j, op.t);
    }
  }

  /** Every answer of every call in every run comes from the reply it should: a success hands out what the server said
      of the requested sandbox, of the tracked one when that can be reused, or of the one just created; a failure
      names what went wrong. */
  lemma {:induction false} AnswersHaveOrigins<O>(states: seq<State<O>>, ops: seq<Op<O>>, n: nat, t: Thread)
    returns (j: nat)
    requires IsRun(states, ops) && n < |states| && t in states[n].calls && OutcomeOf(states[n].calls[t].pc).Some?
    ensures j < n && Origin(states, ops, j, t, states[n].calls[t].req, OutcomeOf(states[n].calls[t].pc).value)
  {
    assert n > 0;
    assert StepAt(states, ops, n - 1);
    var s, s' := states[n - 1], states[n];
    OthersStay(s, ops[n - 1], t);
    if t in s.calls && OutcomeOf(s.calls[t].pc) == OutcomeOf(s'.calls[t].pc) {
      j := AnswersHaveOrigins(states, ops, n - 1, t);
    } else {
      DecidedHere(states, ops, n - 1, t);
      j := n - 1;
    }
  }
}

/** The control service and its adapter running together: every interleaving of the service's steps with the
    adapter's. */
module ServiceProvisioning {
  import opened Seqs
  import opened Retention
  import opened ServiceModel
  import opened ServiceInvariant
  import opened ServiceSteps
  import opened ServiceClientSteps
  import opened ServiceTheorems
  import P = Provisioning

  datatype Joint = Joint(service: State, adapter: P.State)

  /** The service's configuration, the adapter's setting, and the backend name under which the adapter is known. */
  datatype World = World(cfg: Config, setting: P.Setting, backend: string)

  /** A successful provision is committed by the service; a terminate marks the sandbox in both; everything else is
      a step of one side. */
  datatype JointOp =
    | Publish(g: P.Call, now: nat)
    | Terminate(id: Id, now: nat)
    | ServiceOnly(op: Op)
    | AdapterOnly(pop: P.Op)

  /** The sandbox is on this adapter and not yet stopped, so terminating it calls the adapter. */
  predicate CallsAdapter(s: State, id: Id, w: World) {
    id in s.sandboxes && s.sandboxes[id].backend == w.backend && !s.sandboxes[id].status.Stopped?
  }

  /** The service commits sandboxes of this backend only after provisioning them under a fresh id, and calls the
      adapter's terminate only for sandboxes it has marked. */
  ghost predicate JointEnabled(j: Joint, op: JointOp, w: World) {
    match op
    case Publish(g, now) =>
      && P.Enabled(j.adapter, P.OpPublish(g))
      && Enabled(j.service, OpCreateSandbox(j.adapter.provisions[g].id, w.backend, now), w.cfg)
    case Terminate(_, _) => true
    case ServiceOnly(op) =>
      && Enabled(j.service, op, w.cfg) && !op.OpTerminateBegin?
      && (op.OpCreateSandbox? ==> op.backend != w.backend)
    case AdapterOnly(pop) =>
      && P.Enabled(j.adapter, pop) && P.ByService(j.adapter, pop)
      && !pop.OpPublish? && !pop.OpMarkStopping? && !pop.OpMarkStopped?
  }

  ghost function JointApply(j: Joint, op: JointOp, w: World): Joint
    requires JointEnabled(j, op, w)
  {
    match op
    case Publish(g, now) =>
      Joint(Apply(j.service, OpCreateSandbox(j.adapter.provisions[g].id, w.backend, now), w.cfg),
            P.Publish(j.adapter, g))
    case Terminate(id, now) =>
      Joint(TerminateBegin(j.service, id, now, w.cfg),
            if CallsAdapter(j.service, id, w) then P.MarkStopping(j.adapter, id) else j.adapter)
    case ServiceOnly(op) => j.(service := Apply(j.service, op, w.cfg))
    case AdapterOnly(pop) => j.(adapter := P.Apply(j.adapter, pop, w.setting))
  }

  // ---- READY comes from creation alone ----

  predicate IsReady(s: State, id: Id) {
    id in s.sandboxes && s.sandboxes[id].status.Ready?
  }

  /** A sandbox that is ready afterwards was ready before, on the same backend. */
  ghost predicate ReadyWas(s: State, s': State, id: Id) {
    IsReady(s', id) ==> IsReady(s, id) && s'.sandboxes[id].backend == s.sandboxes[id].backend
  }

  lemma PruneReady(s: State, s1: State, now: nat, cfg: Config, id: Id)
    requires ReadyWas(s, s1, id)
    ensures ReadyWas(s, Prune(s1, now, cfg), id)
  {
  }

  lemma CreateSandboxReady(s: State, other: Id, backend: string, now: nat, cfg: Config, id: Id)
    requires id != other
    ensures ReadyWas(s, CreateSandbox(s, other, backend, now, cfg), id)
  {
    var s1 := s.(sandboxes := s.sandboxes[other := Sandbox(backend, Ready, None, false, now, now)],
                 feeds := CreateSandbox(s, other, backend, now, cfg).feeds);
    assert ReadyWas(s, s1, id);
  }

  lemma MarkStoppingReady(s: State, other: Id, now: nat, cfg: Config, id: Id)
    requires other in s.sandboxes && !s.sandboxes[other].status.Stopped?
    ensures ReadyWas(s, MarkStopping(s, other, now, cfg), id)
    ensures id == other ==> !IsReady(MarkStopping(s, other, now, cfg), id)
  {
    var s' := MarkStopping(s, other, now, cfg);
    assert id != other ==> Get(s'.sandboxes, id) == Get(s.sandboxes, id);
  }

  lemma TerminateBeginReady(s: State, other: Id, now: nat, cfg: Config, id: Id)
    ensures ReadyWas(s, TerminateBegin(s, other, now, cfg), id)
    ensures id == other ==> !IsReady(TerminateBegin(s, other, now, cfg), id)
  {
    if other in s.sandboxes && !s.sandboxes[other].status.Stopped? {
      MarkStoppingReady(s, other, now, cfg, id);
      TerminateExecutionsRest(MarkStopping(s, other, now, cfg), other, now, cfg);
    }
  }

  lemma StopReady(s: State, other: Id, now: nat, cfg: Config, id: Id)
    requires other in s.sandboxes
    ensures var stopped := SetSandbox(s, other, Stopped, "sandbox terminated", now, cfg);
            ReadyWas(s, stopped.(feeds := Seal(stopped.feeds, OfSandbox(other))), id)
  {
  }

  lemma TerminateEndReady(s: State, other: Id, ok: bool, now: nat, cfg: Config, id: Id)
    ensures ReadyWas(s, TerminateEnd(s, other, ok, now, cfg), id)
  {
    var s1 := s.(terminating := s.terminating - multiset{other});
    if ok && other in s.sandboxes && !s.sandboxes[other].status.Stopped? {
      var stopped := SetSandbox(s1, other, Stopped, "sandbox terminated", now, cfg);
      var s2 := stopped.(feeds := Seal(stopped.feeds, OfSandbox(other)));
      StopReady(s1, other, now, cfg, id);
      assert TerminateEnd(s, other, ok, now, cfg) == Prune(s2, now, cfg);
      PruneReady(s, s2, now, cfg, id);
    } else if ok {
      assert TerminateEnd(s, other, ok, now, cfg) == Prune(s1, now, cfg);
      PruneReady(s, s1, now, cfg, id);
    }
  }

  lemma CreateExecutionReady(s: State, k: Key, kind: Kind, now: nat, cfg: Config, id: Id)
    ensures ReadyWas(s, CreateExecution(s, k, kind, now, cfg), id)
  {
    if CreateVerdict(s, k.sandbox, cfg).Accepted? {
      PruneReady(s, Enqueued(s, k, kind, now, cfg), now, cfg, id);
    }
  }

  lemma FinalizeSame(s: State, k: Key, status: Status, code: int, message: string, exitMessage: string, now: nat,
                     cfg: Config)
    requires k in s.executions
    ensures Finalize(s, k, status, code, message, exitMessage, now, cfg).sandboxes == s.sandboxes
  {
  }

  /** Ending an execution and pruning make no sandbox ready. */
  lemma FinalizeReady(s: State, s1: State, k: Key, status: Status, code: int, message: string, exitMessage: string,
                      now: nat, cfg: Config, id: Id)
    requires k in s1.executions && ReadyWas(s, s1, id)
    ensures ReadyWas(s, Prune(Finalize(s1, k, status, code, message, exitMessage, now, cfg), now, cfg), id)
  {
    var s2 := Finalize(s1, k, status, code, message, exitMessage, now, cfg);
    FinalizeSame(s1, k, status, code, message, exitMessage, now, cfg);
    PruneReady(s, s2, now, cfg, id);
  }

  lemma BeginRunReady(s: State, k: Key, now: nat, cfg: Config, id: Id)
    ensures ReadyWas(s, BeginRun(s, k, now, cfg), id)
  {
    if Live(s.executions, k) {
      var quit, e := s.(runners := s.runners[k := RunnerDone]), s.executions[k];
      if k.sandbox !in s.sandboxes {
        FinalizeReady(s, quit, k, Failed, 1, e.message, "sandbox no longer exists", now, cfg, id);
      } else if !s.sandboxes[k.sandbox].status.Ready? {
        FinalizeReady(s, quit, k, Canceled, CancelExitCode(e.cancelSignal), e.message, "sandbox is not ready", now,
                      cfg, id);
      } else if s.sandboxes[k.sandbox].backend !in cfg.backends {
        FinalizeReady(s, quit, k, Failed, 1, e.message, "unknown backend", now, cfg, id);
      }
    }
  }

  lemma ReturnedReady(s: State, k: Key, now: nat, id: Id)
    requires k in s.executions
    ensures ReadyWas(s, RunReturned(s, k, now), id)
  {
  }

  lemma CollectedReady(s: State, k: Key, result: RunResult, streaming: bool, now: nat, cfg: Config, id: Id)
    requires k in s.executions
    ensures ReadyWas(s, Collected(s, k, result, streaming, now, cfg), id)
  {
    ReturnedReady(s, k, now, id);
  }

  lemma FinishRunReady(s: State, k: Key, result: RunResult, streaming: bool, now: nat, cfg: Config, id: Id)
    ensures ReadyWas(s, FinishRun(s, k, result, streaming, now, cfg), id)
  {
    if k in s.executions {
      var (status, code) := RunOutcome(s, k, result);
      CollectedReady(s, k, result, streaming, now, cfg, id);
      FinalizeReady(s, Collected(s, k, result, streaming, now, cfg), k, status, code, ResultMessage(result), "", now,
                    cfg, id);
    }
  }

  lemma CancelNotedSame(s: State, k: Key, signal: int, cfg: Config)
    requires k in s.executions
    ensures CancelNoted(s, k, signal, cfg).sandboxes == s.sandboxes
  {
  }

  lemma CancelQueuedReady(s: State, k: Key, signal: int, now: nat, cfg: Config, id: Id)
    requires k in s.executions && s.executions[k].status.Queued?
    ensures ReadyWas(s, Cancel(s, k, signal, now, cfg), id)
  {
    var n, message, text := NormalSignal(signal), s.executions[k].message, "execution canceled before start";
    var s1 := CancelNoted(s, k, n, cfg);
    CancelNotedSame(s, k, n, cfg);
    FinalizeReady(s, s1, k, Canceled, CancelExitCode(n), message, text, now, cfg, id);
  }

  lemma CancelReady(s: State, k: Key, signal: int, now: nat, cfg: Config, id: Id)
    ensures ReadyWas(s, Cancel(s, k, signal, now, cfg), id)
  {
    if Live(s.executions, k) && s.executions[k].status.Queued? {
      CancelQueuedReady(s, k, signal, now, cfg, id);
    } else {
      assert Cancel(s, k, signal, now, cfg).sandboxes == s.sandboxes;
    }
  }

  lemma DownloadReady(s: State, other: Id, cfg: Config, id: Id)
    ensures ReadyWas(s, DownloadBegin(s, other, cfg), id)
  {
  }

  lemma DownloadEndReady(s: State, other: Id, id: Id)
    ensures ReadyWas(s, DownloadEnd(s, other), id)
  {
  }

  lemma OutputReady(s: State, k: Key, isStdout: bool, chunk: string, cfg: Config, id: Id)
    ensures ReadyWas(s, OutputChunk(s, k, isStdout, chunk, cfg), id)
  {
  }

  lemma SessionsSame(s: State, op: Op, cfg: Config)
    requires Enabled(s, op, cfg) && (op.OpAttach? || op.OpCallCancel? || op.OpOpen? || op.OpConsume? || op.OpRelease?)
    ensures Apply(s, op, cfg).sandboxes == s.sandboxes
  {
    match op
    case OpOpen(session, k, token, ttl, now) => OpenSessionShape(s, session, k, token, ttl, now, cfg);
    case OpConsume(h, session, token, now) => ConsumeSessionShape(s, h, session, token, now);
    case _ =>
  }

  lemma MoveSame(s: State, w: nat, m: FollowMove)
    requires CanMove(s, w, m)
    ensures MoveWatch(s, w, m).sandboxes == s.sandboxes
  {
    MoveWatchShape(s, w, m);
  }

  /** Only creating a sandbox makes it READY. */
  lemma ReadyOnlyByCreation(s: State, op: Op, cfg: Config, id: Id)
    requires Enabled(s, op, cfg) && !(op.OpCreateSandbox? && op.id == id)
    ensures ReadyWas(s, Apply(s, op, cfg), id)
  {
    match op
    case OpCreateSandbox(other, backend, now) => CreateSandboxReady(s, other, backend, now, cfg, id);
    case OpTerminateBegin(other, now) => TerminateBeginReady(s, other, now, cfg, id);
    case OpTerminateEnd(other, ok, now) => TerminateEndReady(s, other, ok, now, cfg, id);
    case OpCreateExecution(k, kind, now) => CreateExecutionReady(s, k, kind, now, cfg, id);
    case OpBeginRun(k, now) => BeginRunReady(s, k, now, cfg, id);
    case OpFinishRun(k, result, streaming, now) => FinishRunReady(s, k, result, streaming, now, cfg, id);
    case OpCancel(k, signal, now) => CancelReady(s, k, signal, now, cfg, id);
    case OpDownloadBegin(other) => DownloadReady(s, other, cfg, id);
    case OpDownloadEnd(other) => DownloadEndReady(s, other, id);
    case OpOutput(k, isStdout, chunk) => OutputReady(s, k, isStdout, chunk, cfg, id);
    case OpWatch(w, t, mode) => assert StartWatch(s, w, t, mode).sandboxes == s.sandboxes;
    case OpMove(w, m) => MoveSame(s, w, m);
    case OpEndWatch(w) => assert EndWatch(s, w).sandboxes == s.sandboxes;
    case _ => SessionsSame(s, op, cfg);
  }

  // ---- Joint runs ----

  /** Each side is in order, and what the service shows as READY on this backend the adapter's caller knows as READY. */
  ghost predicate JointInv(j: Joint, w: World) {
    && Inv(j.service, w.cfg) && P.Inv(j.adapter, w.setting) && P.ServiceInv(j.adapter)
    && forall id :: Agrees(j, id, w)
  }

  predicate Agrees(j: Joint, id: Id, w: World) {
    IsReady(j.service, id) && j.service.sandboxes[id].backend == w.backend ==>
      id in j.adapter.service && j.adapter.service[id].Ready?
  }

  lemma PublishAgrees(j: Joint, g: P.Call, now: nat, w: World, id: Id)
    requires JointInv(j, w) && JointEnabled(j, Publish(g, now), w)
    ensures Agrees(JointApply(j, Publish(g, now), w), id, w)
  {
    assert Agrees(j, id, w);
    if id != j.adapter.provisions[g].id {
      ReadyOnlyByCreation(j.service, OpCreateSandbox(j.adapter.provisions[g].id, w.backend, now), w.cfg, id);
    }
  }

  lemma PublishInv(j: Joint, g: P.Call, now: nat, w: World)
    requires JointInv(j, w) && JointEnabled(j, Publish(g, now), w)
    ensures JointInv(JointApply(j, Publish(g, now), w), w)
  {
    var created := j.adapter.provisions[g].id;
    var op, j' := OpCreateSandbox(created, w.backend, now), JointApply(j, Publish(g, now), w);
    StepInv(j.service, op, w.cfg);
    P.StepInv(j.adapter, P.OpPublish(g), w.setting);
    P.ServiceStep(j.adapter, P.OpPublish(g), w.setting);
    forall id ensures Agrees(j', id, w) {
      PublishAgrees(j, g, now, w, id);
    }
  }

  lemma TerminateInv(j: Joint, id: Id, now: nat, w: World)
    requires JointInv(j, w)
    ensures JointInv(JointApply(j, Terminate(id, now), w), w)
  {
    var op, j' := OpTerminateBegin(id, now), JointApply(j, Terminate(id, now), w);
    StepInv(j.service, op, w.cfg);
    P.StepInv(j.adapter, P.OpMarkStopping(id), w.setting);
    P.ServiceStep(j.adapter, P.OpMarkStopping(id), w.setting);
    forall i ensures Agrees(j', i, w) {
      assert Agrees(j, i, w);
      TerminateBeginReady(j.service, id, now, w.cfg, i);
    }
  }

  lemma JointStepInv(j: Joint, op: JointOp, w: World)
    requires JointInv(j, w) && JointEnabled(j, op, w)
    ensures JointInv(JointApply(j, op, w), w)
  {
    match op
    case Publish(g, now) => PublishInv(j, g, now, w);
    case Terminate(id, now) => TerminateInv(j, id, now, w);
    case ServiceOnly(sop) => ServiceOnlyInv(j, sop, w);
    case AdapterOnly(pop) => AdapterOnlyInv(j, pop, w);
  }

  lemma ServiceOnlyInv(j: Joint, sop: Op, w: World)
    requires JointInv(j, w) && JointEnabled(j, ServiceOnly(sop), w)
    ensures JointInv(JointApply(j, ServiceOnly(sop), w), w)
  {
    var j' := JointApply(j, ServiceOnly(sop), w);
    StepInv(j.service, sop, w.cfg);
    forall id ensures Agrees(j', id, w) {
      assert Agrees(j, id, w);
      if sop.OpCreateSandbox? && sop.id == id {
        CreatedElsewhere(j.service, sop.id, sop.backend, sop.now, w.cfg);
      } else {
        ReadyOnlyByCreation(j.service, sop, w.cfg, id);
      }
    }
  }

  lemma CreatedElsewhere(s: State, id: Id, backend: string, now: nat, cfg: Config)
    ensures var s' := CreateSandbox(s, id, backend, now, cfg); id in s'.sandboxes ==>
              s'.sandboxes[id].backend == backend
  {
  }

  lemma AdapterOnlyInv(j: Joint, pop: P.Op, w: World)
    requires JointInv(j, w) && JointEnabled(j, AdapterOnly(pop), w)
    ensures JointInv(JointApply(j, AdapterOnly(pop), w), w)
  {
    var j' := JointApply(j, AdapterOnly(pop), w);
    P.StepInv(j.adapter, pop, w.setting);
    P.ServiceStep(j.adapter, pop, w.setting);
    StatusesUntouched(j.adapter, pop, w.setting);
    forall id ensures Agrees(j', id, w) {
      assert Agrees(j, id, w);
    }
  }

  lemma StatusesUntouched(a: P.State, pop: P.Op, x: P.Setting)
    requires P.Enabled(a, pop) && !pop.OpPublish? && !pop.OpMarkStopping? && !pop.OpMarkStopped?
    ensures P.Apply(a, pop, x).service == a.service
  {
  }

  ghost predicate JointStepAt(js: seq<Joint>, ops: seq<JointOp>, w: World, i: nat)
    requires |js| == |ops| + 1 && i < |ops|
  {
    JointEnabled(js[i], ops[i], w) && js[i + 1] == JointApply(js[i], ops[i], w)
  }

  /** Any finite interleaving of the service's steps with the adapter's, from the start of both. */
  ghost predicate IsJointRun(js: seq<Joint>, ops: seq<JointOp>, w: World) {
    && |js| == |ops| + 1 && js[0] == Joint(Initial(), P.Initial())
    && forall i :: 0 <= i < |ops| ==> JointStepAt(js, ops, w, i)
  }

  lemma {:induction false} JointRunInv(js: seq<Joint>, ops: seq<JointOp>, w: World, n: nat)
    requires IsJointRun(js, ops, w) && n < |js|
    ensures JointInv(js[n], w)
  {
    if n == 0 {
      InitialInv(w.cfg);
      P.InitialInv(w.setting);
    } else {
      JointRunInv(js, ops, w, n - 1);
      assert JointStepAt(js, ops, w, n - 1);
      JointStepInv(js[n - 1], ops[n - 1], w);
    }
  }

  /** In every joint run, a sandbox that the service shows as READY on this backend is in the adapter's table, and
      with a gateway its address is registered to it. */
  lemma ReadySandboxesExist(js: seq<Joint>, ops: seq<JointOp>, w: World, n: nat, id: Id)
    requires IsJointRun(js, ops, w) && n < |js|
    requires IsReady(js[n].service, id) && js[n].service.sandboxes[id].backend == w.backend
    ensures var a := js[n].adapter;
            && id in a.sandboxes
            && (w.setting.gateway ==> w.setting.ipOf(id) in a.registry && a.registry[w.setting.ipOf(id)] == id)
  {
    var a := js[n].adapter;
    JointRunInv(js, ops, w, n);
    assert Agrees(js[n], id, w) && P.IdOk(a, id);
    assert w.setting.gateway ==> P.Holds(a, P.BySandbox(id), w.setting);
  }
}

/** The backend adapter's sandbox table, the gateway's identity table, and the service's view of them: every
    interleaving of ProvisionSandbox and TerminateSandbox calls. */
module Provisioning {
  import opened Seqs

  type Id = string
  type Ip = string
  type Call = nat

  /** Where a ProvisionSandbox call stands: reserved, registered with the gateway, booted, failed inside the launch,
      ended (and, after a success, reported to the service's caller). */
  datatype ProvisionPc = Launching | Registered | Launched | Failing | Ended(ok: bool) | Reported

  datatype Provision = Provision(id: Id, pc: ProvisionPc)

  /** A TerminateSandbox call that found its sandbox still has to release the guest address. */
  datatype Termination = Releasing(id: Id) | Over

  datatype Status = Ready | Stopping | Stopped

  /** `ipOf` is the address derived from a sandbox id, never empty; different ids can collide. `gateway` says whether
      there is a registry. */
  datatype Setting = Setting(ipOf: Id -> Ip, gateway: bool)

  datatype State = State(
    sandboxes: set<Id>,
    provisioning: set<Id>,
    registry: map<Ip, Id>,
    provisions: map<Call, Provision>,
    terminations: map<Call, Termination>,
    issued: set<Id>,
    service: map<Id, Status>,
    terminating: set<Id>)

  function Initial(): State {
    State({}, {}, map[], map[], map[], {}, map[], {})
  }

  function At(s: State, g: Call, id: Id, pc: ProvisionPc): State {
    s.(provisions := s.provisions[g := Provision(id, pc)])
  }

  // ---- ProvisionSandbox ----

  /** First critical section. */
  function Reserve(s: State, g: Call, id: Id): State {
    var s1 := s.(issued := s.issued + {id});
    if id in s.sandboxes || id in s.provisioning then At(s1, g, id, Ended(false))
    else At(s1, g, id, Launching).(provisioning := s.provisioning + {id})
  }

  /** Inside the launch: the address is registered, or refused because it is taken. */
  function Register(s: State, g: Call, x: Setting): State
    requires g in s.provisions
  {
    var id := s.provisions[g].id;
    if !x.gateway then At(s, g, id, Registered)
    else if x.ipOf(id) in s.registry then At(s, g, id, Failing)
    else At(s, g, id, Registered).(registry := s.registry[x.ipOf(id) := id])
  }

  /** The launch fails before or after registration; in the second case it releases the address. */
  function FailLaunch(s: State, g: Call, x: Setting): State
    requires g in s.provisions
  {
    var p := s.provisions[g];
    At(s, g, p.id, Failing).(
      registry := if x.gateway && p.pc.Registered? then s.registry - {x.ipOf(p.id)} else s.registry)
  }

  /** Last critical section after a successful launch, with its check for a duplicate. */
  function Commit(s: State, g: Call): State
    requires g in s.provisions
  {
    var id := s.provisions[g].id;
    var s1 := s.(provisioning := s.provisioning - {id});
    if id in s.sandboxes then At(s1, g, id, Ended(false))
    else At(s1, g, id, Ended(true)).(sandboxes := s.sandboxes + {id})
  }

  /** Last critical section after a failed launch. */
  function Abort(s: State, g: Call): State
    requires g in s.provisions
  {
    At(s, g, s.provisions[g].id, Ended(false)).(provisioning := s.provisioning - {s.provisions[g].id})
  }

  /** A launch that fails after registering ends like one that fails before; one that boots keeps the registration. */
  lemma FailureUndoesRegistration(s: State, g: Call, x: Setting)
    requires ProvisionAt(s, g, Launching)
    ensures var registered := Register(s, g, x);
            ProvisionAt(registered, g, Registered) ==>
              && FailLaunch(registered, g, x) == FailLaunch(s, g, x)
              && At(registered, g, s.provisions[g].id, Launched)
                 == At(s, g, s.provisions[g].id, Launched).(registry := registered.registry)
  {
    var registered := Register(s, g, x);
    if ProvisionAt(registered, g, Registered) {
      assert FailLaunch(registered, g, x).registry == s.registry;
      assert FailLaunch(registered, g, x).provisions == FailLaunch(s, g, x).provisions;
    }
  }

  // ---- TerminateSandbox ----

  function Remove(s: State, g: Call, id: Id): State {
    if id in s.sandboxes then s.(sandboxes := s.sandboxes - {id}, terminations := s.terminations[g := Releasing(id)])
    else s.(terminations := s.terminations[g := Over])
  }

  function Release(s: State, g: Call, x: Setting): State
    requires g in s.terminations && s.terminations[g].Releasing?
  {
    s.(registry := if x.gateway then s.registry - {x.ipOf(s.terminations[g].id)} else s.registry,
       terminations := s.terminations[g := Over])
  }

  // ---- The service around it ----

  /** A successful provision becomes a READY sandbox. */
  function Publish(s: State, g: Call): State
    requires g in s.provisions
  {
    At(s, g, s.provisions[g].id, Reported).(service := s.service[s.provisions[g].id := Ready])
  }

  /** TerminateSandbox marks the sandbox before it calls the adapter. */
  function MarkStopping(s: State, id: Id): State {
    if id in s.service && !s.service[id].Stopped?
    then s.(service := s.service[id := Stopping], terminating := s.terminating + {id})
    else s
  }

  function MarkStopped(s: State, id: Id): State {
    if id in s.service then s.(service := s.service[id := Stopped]) else s
  }

  datatype Op =
    | OpReserve(g: Call, id: Id)
    | OpRegister(g: Call)
    | OpFailLaunch(g: Call)
    | OpLaunched(g: Call)
    | OpCommit(g: Call)
    | OpAbort(g: Call)
    | OpRemove(g: Call, id: Id)
    | OpRelease(g: Call)
    | OpPublish(g: Call)
    | OpMarkStopping(id: Id)
    | OpMarkStopped(id: Id)

  predicate ProvisionAt(s: State, g: Call, pc: ProvisionPc) {
    g in s.provisions && s.provisions[g].pc == pc
  }

  /** Any caller may provision and terminate any id at any time. */
  predicate Enabled(s: State, op: Op) {
    match op
    case OpReserve(g, _) => g !in s.provisions
    case OpRegister(g) => ProvisionAt(s, g, Launching)
    case OpFailLaunch(g) => ProvisionAt(s, g, Launching) || ProvisionAt(s, g, Registered)
    case OpLaunched(g) => ProvisionAt(s, g, Registered)
    case OpCommit(g) => ProvisionAt(s, g, Launched)
    case OpAbort(g) => ProvisionAt(s, g, Failing)
    case OpRemove(g, _) => g !in s.terminations
    case OpRelease(g) => g in s.terminations && s.terminations[g].Releasing?
    case OpPublish(g) => ProvisionAt(s, g, Ended(true))
    case _ => true
  }

  /** The service provisions freshly generated ids and terminates only sandboxes it has marked; a sandbox is marked
      stopped only while a termination of it is under way or over. */
  predicate ByService(s: State, op: Op) {
    match op
    case OpReserve(_, id) => id !in s.issued
    case OpRemove(_, id) => id in s.terminating
    case OpMarkStopped(id) => id in s.terminating
    case _ => true
  }

  function Apply(s: State, op: Op, x: Setting): State
    requires Enabled(s, op)
  {
    match op
    case OpReserve(g, id) => Reserve(s, g, id)
    case OpRegister(g) => Register(s, g, x)
    case OpFailLaunch(g) => FailLaunch(s, g, x)
    case OpLaunched(g) => At(s, g, s.provisions[g].id, Launched)
    case OpCommit(g) => Commit(s, g)
    case OpAbort(g) => Abort(s, g)
    case OpRemove(g, id) => Remove(s, g, id)
    case OpRelease(g) => Release(s, g, x)
    case OpPublish(g) => Publish(s, g)
    case OpMarkStopping(id) => MarkStopping(s, id)
    case OpMarkStopped(id) => MarkStopped(s, id)
  }

  // ---- What every interleaving keeps ----

  /** Who is responsible for a registered address. */
  datatype Owner = ByProvision(g: Call) | BySandbox(id: Id) | ByTermination(g: Call)

  function OwnerId(s: State, o: Owner): Option<Id> {
    match o
    case ByProvision(g) =>
      if ProvisionAt(s, g, Registered) || ProvisionAt(s, g, Launched) then Some(s.provisions[g].id) else None
    case BySandbox(id) => if id in s.sandboxes then Some(id) else None
    case ByTermination(g) =>
      if g in s.terminations && s.terminations[g].Releasing? then Some(s.terminations[g].id) else None
  }

  predicate Pending(pc: ProvisionPc) {
    pc.Launching? || pc.Registered? || pc.Launched? || pc.Failing?
  }

  predicate IsPending(s: State, g: Call) {
    g in s.provisions && Pending(s.provisions[g].pc)
  }

  ghost predicate TablesOk(s: State) {
    && s.sandboxes !! s.provisioning
    && (forall g :: IsPending(s, g) ==> s.provisions[g].id in s.provisioning)
    && (forall g, f :: IsPending(s, g) && IsPending(s, f) && s.provisions[g].id == s.provisions[f].id ==> g == f)
  }

  /** The owner's address is registered to the owner's sandbox. */
  predicate Holds(s: State, o: Owner, x: Setting) {
    OwnerId(s, o).Some? ==>
      x.ipOf(OwnerId(s, o).value) in s.registry && s.registry[x.ipOf(OwnerId(s, o).value)] == OwnerId(s, o).value
  }

  /** Two owners whose sandboxes derive the same address. */
  predicate SameAddress(s: State, o: Owner, u: Owner, x: Setting) {
    && OwnerId(s, o).Some? && OwnerId(s, u).Some?
    && x.ipOf(OwnerId(s, o).value) == x.ipOf(OwnerId(s, u).value)
  }

  /** Somebody is responsible for the address. */
  ghost predicate Owned(s: State, ip: Ip, x: Setting)
    requires ip in s.registry
  {
    exists o :: OwnerId(s, o) == Some(s.registry[ip]) && x.ipOf(s.registry[ip]) == ip
  }

  ghost predicate RegistryOk(s: State, x: Setting) {
    && (forall o :: Holds(s, o, x))
    && (forall o, u :: SameAddress(s, o, u, x) ==> o == u)
    && (forall ip :: ip in s.registry ==> Owned(s, ip, x))
  }

  ghost predicate Inv(s: State, x: Setting) {
    TablesOk(s) && (x.gateway ==> RegistryOk(s, x))
  }

  /** A call moves on: it keeps its reservation while it is pending, and only it gives the reservation up. */
  lemma TablesMove(s: State, s': State, g: Call, p: Provision)
    requires TablesOk(s) && s'.provisions == s.provisions[g := p] && s'.sandboxes !! s'.provisioning
    requires Pending(p.pc) ==>
               && p.id in s'.provisioning
               && (if IsPending(s, g) then s.provisions[g].id == p.id else p.id !in s.provisioning)
    requires forall id :: id in s.provisioning ==>
               id in s'.provisioning || (IsPending(s, g) && s.provisions[g].id == id && !Pending(p.pc))
    ensures TablesOk(s')
  {
    forall f | IsPending(s', f) ensures s'.provisions[f].id in s'.provisioning {
      assert f != g ==> IsPending(s, f);
    }
    forall f, h | IsPending(s', f) && IsPending(s', h) && s'.provisions[f].id == s'.provisions[h].id ensures f == h {
      assert (f != g ==> IsPending(s, f)) && (h != g ==> IsPending(s, h));
    }
  }

  lemma TablesOther(s: State, s': State)
    requires TablesOk(s) && s'.provisions == s.provisions && s'.provisioning == s.provisioning
    requires s'.sandboxes <= s.sandboxes
    ensures TablesOk(s')
  {
    forall f | IsPending(s', f) ensures s'.provisions[f].id in s'.provisioning {
      assert IsPending(s, f);
    }
    forall f, h | IsPending(s', f) && IsPending(s', h) && s'.provisions[f].id == s'.provisions[h].id ensures f == h {
      assert IsPending(s, f) && IsPending(s, h);
    }
  }

  lemma TablesReserve(s: State, g: Call, id: Id)
    requires TablesOk(s) && g !in s.provisions
    ensures TablesOk(Reserve(s, g, id))
  {
    TablesMove(s, Reserve(s, g, id), g, Reserve(s, g, id).provisions[g]);
  }

  /** In order, the tables make the duplicate check after the launch succeed. */
  lemma TablesCommit(s: State, g: Call)
    requires TablesOk(s) && ProvisionAt(s, g, Launched)
    ensures TablesOk(Commit(s, g)) && s.provisions[g].id !in s.sandboxes
  {
    assert IsPending(s, g);
    TablesMove(s, Commit(s, g), g, Commit(s, g).provisions[g]);
  }

  lemma {:induction false} TablesStep(s: State, op: Op, x: Setting)
    requires TablesOk(s) && Enabled(s, op)
    ensures TablesOk(Apply(s, op, x))
  {
    match op
    case OpReserve(g, id) => TablesReserve(s, g, id);
    case OpRegister(g) => TablesMove(s, Register(s, g, x), g, Register(s, g, x).provisions[g]);
    case OpFailLaunch(g) => TablesMove(s, FailLaunch(s, g, x), g, Provision(s.provisions[g].id, Failing));
    case OpLaunched(g) => TablesMove(s, At(s, g, s.provisions[g].id, Launched), g,
                                     Provision(s.provisions[g].id, Launched));
    case OpCommit(g) => TablesCommit(s, g);
    case OpAbort(g) => TablesMove(s, Abort(s, g), g, Provision(s.provisions[g].id, Ended(false)));
    case OpPublish(g) => TablesMove(s, Publish(s, g), g, Provision(s.provisions[g].id, Reported));
    case OpRemove(g, id) => TablesOther(s, Remove(s, g, id));
    case OpRelease(g) => TablesOther(s, Release(s, g, x));
    case OpMarkStopping(id) => TablesOther(s, MarkStopping(s, id));
    case OpMarkStopped(id) => TablesOther(s, MarkStopped(s, id));
  }

  /** Enough to keep the registry in order: owners and registrations either stay as they are or go together. */
  lemma RegistryKept(s: State, s': State, x: Setting, was: Owner, now: Owner)
    requires RegistryOk(s, x)
    requires s'.registry == s.registry
    requires OwnerId(s', now) == OwnerId(s, was)
    requires was != now ==> OwnerId(s', was).None? && OwnerId(s, now).None?
    requires forall o :: o != was && o != now ==> OwnerId(s', o) == OwnerId(s, o)
    ensures RegistryOk(s', x)
  {
    forall o ensures Holds(s', o, x) {
      assert Holds(s, o, x) && Holds(s, was, x);
    }
    forall o, u | SameAddress(s', o, u, x) ensures o == u {
      assert SameAddress(s, if o == now then was else o, if u == now then was else u, x);
    }
    forall ip | ip in s'.registry ensures Owned(s', ip, x) {
      assert ip in s.registry ==> Owned(s, ip, x);
      var o :| OwnerId(s, o) == Some(s.registry[ip]) && x.ipOf(s.registry[ip]) == ip;
      assert OwnerId(s', if o == was then now else o) == Some(s'.registry[ip]);
    }
  }

  lemma RegistryGained(s: State, s': State, x: Setting, now: Owner, id: Id)
    requires RegistryOk(s, x) && x.ipOf(id) !in s.registry
    requires s'.registry == s.registry[x.ipOf(id) := id]
    requires OwnerId(s, now).None? && OwnerId(s', now) == Some(id)
    requires forall o :: o != now ==> OwnerId(s', o) == OwnerId(s, o)
    ensures RegistryOk(s', x)
  {
    forall o
      ensures Holds(s', o, x) && (o != now && OwnerId(s', o).Some? ==> x.ipOf(OwnerId(s', o).value) != x.ipOf(id))
    {
      assert Holds(s, o, x);
    }
    forall o, u | SameAddress(s', o, u, x) ensures o == u {
      assert o != now && u != now ==> SameAddress(s, o, u, x);
    }
    forall ip | ip in s'.registry ensures Owned(s', ip, x) {
      assert ip in s.registry ==> Owned(s, ip, x);
      if ip == x.ipOf(id) {
        assert OwnerId(s', now) == Some(s'.registry[ip]);
      } else {
        var o :| OwnerId(s, o) == Some(s.registry[ip]) && x.ipOf(s.registry[ip]) == ip;
        assert OwnerId(s', o) == Some(s'.registry[ip]);
      }
    }
  }

  lemma RegistryLost(s: State, s': State, x: Setting, was: Owner, id: Id)
    requires RegistryOk(s, x) && OwnerId(s, was) == Some(id) && OwnerId(s', was).None?
    requires s'.registry == s.registry - {x.ipOf(id)}
    requires forall o :: o != was ==> OwnerId(s', o) == OwnerId(s, o)
    ensures RegistryOk(s', x)
  {
    forall o ensures Holds(s', o, x) {
      assert Holds(s, o, x) && (SameAddress(s, o, was, x) ==> o == was);
    }
    forall o, u | SameAddress(s', o, u, x) ensures o == u {
      assert SameAddress(s, o, u, x);
    }
    forall ip | ip in s'.registry ensures Owned(s', ip, x) {
      assert ip in s.registry ==> Owned(s, ip, x);
      var o :| OwnerId(s, o) == Some(s.registry[ip]) && x.ipOf(s.registry[ip]) == ip;
      assert OwnerId(s', o) == Some(s'.registry[ip]);
    }
  }

  lemma RegistryRegister(s: State, g: Call, x: Setting)
    requires RegistryOk(s, x) && ProvisionAt(s, g, Launching) && x.gateway
    ensures RegistryOk(Register(s, g, x), x)
  {
    var id := s.provisions[g].id;
    if x.ipOf(id) in s.registry {
      RegistryKept(s, Register(s, g, x), x, ByProvision(g), ByProvision(g));
    } else {
      RegistryGained(s, Register(s, g, x), x, ByProvision(g), id);
    }
  }

  lemma RegistryFail(s: State, g: Call, x: Setting)
    requires RegistryOk(s, x) && (ProvisionAt(s, g, Launching) || ProvisionAt(s, g, Registered)) && x.gateway
    ensures RegistryOk(FailLaunch(s, g, x), x)
  {
    if s.provisions[g].pc.Registered? {
      RegistryLost(s, FailLaunch(s, g, x), x, ByProvision(g), s.provisions[g].id);
    } else {
      RegistryKept(s, FailLaunch(s, g, x), x, ByProvision(g), ByProvision(g));
    }
  }

  lemma RegistryRemove(s: State, g: Call, id: Id, x: Setting)
    requires RegistryOk(s, x) && g !in s.terminations
    ensures RegistryOk(Remove(s, g, id), x)
  {
    if id in s.sandboxes {
      RegistryKept(s, Remove(s, g, id), x, BySandbox(id), ByTermination(g));
    } else {
      RegistryKept(s, Remove(s, g, id), x, ByTermination(g), ByTermination(g));
    }
  }

  lemma RegistryCommit(s: State, g: Call, x: Setting)
    requires RegistryOk(s, x) && TablesOk(s) && ProvisionAt(s, g, Launched)
    ensures RegistryOk(Commit(s, g), x)
  {
    TablesCommit(s, g);
    RegistryKept(s, Commit(s, g), x, ByProvision(g), BySandbox(s.provisions[g].id));
  }

  /** A call moves between two positions in which it owns nothing, or stays owner. */
  lemma RegistryQuiet(s: State, g: Call, p: Provision, s': State, x: Setting)
    requires RegistryOk(s, x)
    requires s' == s.(provisions := s.provisions[g := p], provisioning := s'.provisioning, issued := s'.issued,
                      service := s'.service)
    requires OwnerId(s', ByProvision(g)) == OwnerId(s, ByProvision(g))
    ensures RegistryOk(s', x)
  {
    RegistryKept(s, s', x, ByProvision(g), ByProvision(g));
  }

  lemma RegistryReserve(s: State, g: Call, id: Id, x: Setting)
    requires RegistryOk(s, x) && g !in s.provisions
    ensures RegistryOk(Reserve(s, g, id), x)
  {
    RegistryQuiet(s, g, Reserve(s, g, id).provisions[g], Reserve(s, g, id), x);
  }

  lemma RegistryLaunched(s: State, g: Call, x: Setting)
    requires RegistryOk(s, x) && ProvisionAt(s, g, Registered)
    ensures RegistryOk(At(s, g, s.provisions[g].id, Launched), x)
  {
    RegistryQuiet(s, g, Provision(s.provisions[g].id, Launched), At(s, g, s.provisions[g].id, Launched), x);
  }

  lemma RegistryAbort(s: State, g: Call, x: Setting)
    requires RegistryOk(s, x) && ProvisionAt(s, g, Failing)
    ensures RegistryOk(Abort(s, g), x)
  {
    RegistryQuiet(s, g, Provision(s.provisions[g].id, Ended(false)), Abort(s, g), x);
  }

  lemma RegistryPublish(s: State, g: Call, x: Setting)
    requires RegistryOk(s, x) && ProvisionAt(s, g, Ended(true))
    ensures RegistryOk(Publish(s, g), x)
  {
    RegistryQuiet(s, g, Provision(s.provisions[g].id, Reported), Publish(s, g), x);
  }

  lemma RegistryRelease(s: State, g: Call, x: Setting)
    requires RegistryOk(s, x) && Enabled(s, OpRelease(g)) && x.gateway
    ensures RegistryOk(Release(s, g, x), x)
  {
    RegistryLost(s, Release(s, g, x), x, ByTermination(g), s.terminations[g].id);
  }

  lemma RegistryMark(s: State, id: Id, x: Setting)
    requires RegistryOk(s, x)
    ensures RegistryOk(MarkStopping(s, id), x) && RegistryOk(MarkStopped(s, id), x)
  {
    RegistryKept(s, MarkStopping(s, id), x, BySandbox(id), BySandbox(id));
    RegistryKept(s, MarkStopped(s, id), x, BySandbox(id), BySandbox(id));
  }

  /** Every step keeps both tables in order. */
  lemma StepInv(s: State, op: Op, x: Setting)
    requires Inv(s, x) && Enabled(s, op)
    ensures Inv(Apply(s, op, x), x)
  {
    TablesStep(s, op, x);
    if x.gateway {
      match op
      case OpReserve(g, id) => RegistryReserve(s, g, id, x);
      case OpRegister(g) => RegistryRegister(s, g, x);
      case OpFailLaunch(g) => RegistryFail(s, g, x);
      case OpLaunched(g) => RegistryLaunched(s, g, x);
      case OpCommit(g) => RegistryCommit(s, g, x);
      case OpAbort(g) => RegistryAbort(s, g, x);
      case OpPublish(g) => RegistryPublish(s, g, x);
      case OpRemove(g, id) => RegistryRemove(s, g, id, x);
      case OpRelease(g) => RegistryRelease(s, g, x);
      case OpMarkStopping(id) => RegistryMark(s, id, x);
      case OpMarkStopped(id) => RegistryMark(s, id, x);
    }
  }

  // ---- What the service's discipline adds ----

  predicate IdOk(s: State, id: Id) {
    && (id in s.service && s.service[id].Ready? ==> id in s.sandboxes && id !in s.terminating)
    && (id in s.terminating ==> id in s.service)
    && (id in s.service || id in s.sandboxes || id in s.provisioning ==> id in s.issued)
  }

  predicate CallOk(s: State, g: Call) {
    g in s.provisions ==>
      var p := s.provisions[g];
      p.id in s.issued && (p.id in s.service ==> p.pc.Reported?) && (p.pc == Ended(true) ==> p.id in s.sandboxes)
  }

  ghost predicate ServiceInv(s: State) {
    && (forall id :: IdOk(s, id)) && (forall g :: CallOk(s, g))
    && (forall g, f :: g in s.provisions && f in s.provisions && s.provisions[g].id == s.provisions[f].id ==> g == f)
  }

  lemma ServiceMove(s: State, s': State, g: Call, p: Provision)
    requires ServiceInv(s) && s'.provisions == s.provisions[g := p] && s.issued <= s'.issued
    requires if g in s.provisions then s.provisions[g].id == p.id else p.id !in s.issued
    requires IdOk(s', p.id) && CallOk(s', g)
    requires forall id :: id != p.id ==>
               && (IdOk(s, id) ==> IdOk(s', id)) && (id in s'.service ==> id in s.service)
               && (id in s.sandboxes ==> id in s'.sandboxes)
    ensures ServiceInv(s')
  {
    forall id ensures IdOk(s', id) {
      assert IdOk(s, id);
    }
    forall f ensures CallOk(s', f) && (f in s.provisions && f != g ==> s.provisions[f].id != p.id) {
      assert CallOk(s, f);
    }
  }

  lemma ServiceReserve(s: State, g: Call, id: Id)
    requires ServiceInv(s) && g !in s.provisions && id !in s.issued
    ensures ServiceInv(Reserve(s, g, id))
  {
    assert IdOk(s, id);
    ServiceMove(s, Reserve(s, g, id), g, Reserve(s, g, id).provisions[g]);
  }

  lemma ServiceLaunch(s: State, g: Call, x: Setting, pc: ProvisionPc, registry: map<Ip, Id>)
    requires ServiceInv(s) && IsPending(s, g) && Pending(pc)
    ensures ServiceInv(At(s, g, s.provisions[g].id, pc).(registry := registry))
  {
    assert IdOk(s, s.provisions[g].id) && CallOk(s, g);
    ServiceMove(s, At(s, g, s.provisions[g].id, pc).(registry := registry), g, Provision(s.provisions[g].id, pc));
  }

  lemma ServiceEnd(s: State, g: Call)
    requires ServiceInv(s) && g in s.provisions
    ensures ProvisionAt(s, g, Launched) ==> ServiceInv(Commit(s, g))
    ensures ProvisionAt(s, g, Failing) ==> ServiceInv(Abort(s, g))
  {
    assert IdOk(s, s.provisions[g].id) && CallOk(s, g);
    if ProvisionAt(s, g, Launched) {
      ServiceMove(s, Commit(s, g), g, Commit(s, g).provisions[g]);
    } else if ProvisionAt(s, g, Failing) {
      ServiceMove(s, Abort(s, g), g, Abort(s, g).provisions[g]);
    }
  }

  lemma ServicePublish(s: State, g: Call)
    requires ServiceInv(s) && ProvisionAt(s, g, Ended(true))
    ensures ServiceInv(Publish(s, g))
  {
    assert IdOk(s, s.provisions[g].id) && CallOk(s, g);
    ServiceMove(s, Publish(s, g), g, Provision(s.provisions[g].id, Reported));
  }

  /** Terminating touches only sandboxes the service no longer shows as READY. */
  lemma ServiceTerminate(s: State, s': State, id: Id)
    requires ServiceInv(s) && s'.provisions == s.provisions && s'.issued == s.issued
    requires s'.provisioning == s.provisioning
    requires id in s.service && id in s'.service && !s'.service[id].Ready? && s'.sandboxes <= s.sandboxes
    requires forall j :: j != id ==>
               && (j in s'.service <==> j in s.service) && (j in s.service ==> s'.service[j] == s.service[j])
               && (j in s'.sandboxes <==> j in s.sandboxes) && (j in s'.terminating <==> j in s.terminating)
    ensures ServiceInv(s')
  {
    forall j ensures IdOk(s', j) {
      assert IdOk(s, j);
    }
    forall f ensures CallOk(s', f) {
      assert CallOk(s, f);
    }
  }

  lemma ServiceRemove(s: State, g: Call, id: Id)
    requires ServiceInv(s) && id in s.terminating
    ensures ServiceInv(Remove(s, g, id))
  {
    assert IdOk(s, id);
    ServiceTerminate(s, Remove(s, g, id), id);
  }

  lemma ServiceRelease(s: State, g: Call, x: Setting)
    requires ServiceInv(s) && Enabled(s, OpRelease(g))
    ensures ServiceInv(Release(s, g, x))
  {
    var s' := Release(s, g, x);
    forall j ensures IdOk(s', j) {
      assert IdOk(s, j);
    }
    forall f ensures CallOk(s', f) {
      assert CallOk(s, f);
    }
  }

  lemma ServiceMark(s: State, id: Id)
    requires ServiceInv(s)
    ensures ServiceInv(MarkStopping(s, id)) && (id in s.terminating ==> ServiceInv(MarkStopped(s, id)))
  {
    assert IdOk(s, id);
    if id in s.service && !s.service[id].Stopped? {
      ServiceTerminate(s, MarkStopping(s, id), id);
    }
    if id in s.terminating {
      ServiceTerminate(s, MarkStopped(s, id), id);
    }
  }

  lemma ServiceStep(s: State, op: Op, x: Setting)
    requires ServiceInv(s) && Enabled(s, op) && ByService(s, op)
    ensures ServiceInv(Apply(s, op, x))
  {
    match op
    case OpReserve(g, id) => ServiceReserve(s, g, id);
    case OpRegister(g) => ServiceLaunch(s, g, x, Register(s, g, x).provisions[g].pc, Register(s, g, x).registry);
    case OpFailLaunch(g) => ServiceLaunch(s, g, x, Failing, FailLaunch(s, g, x).registry);
    case OpLaunched(g) => ServiceLaunch(s, g, x, Launched, s.registry);
    case OpCommit(g) => ServiceEnd(s, g);
    case OpAbort(g) => ServiceEnd(s, g);
    case OpPublish(g) => ServicePublish(s, g);
    case OpRemove(g, id) => ServiceRemove(s, g, id);
    case OpRelease(g) => ServiceRelease(s, g, x);
    case OpMarkStopping(id) => ServiceMark(s, id);
    case OpMarkStopped(id) => ServiceMark(s, id);
  }

  // ---- Runs ----

  ghost predicate StepAt(states: seq<State>, ops: seq<Op>, x: Setting, i: nat)
    requires |states| == |ops| + 1 && i < |ops|
  {
    Enabled(states[i], ops[i]) && states[i + 1] == Apply(states[i], ops[i], x)
  }

  /** Any finite interleaving of provisioning and terminating calls. */
  ghost predicate IsRun(states: seq<State>, ops: seq<Op>, x: Setting) {
    && |states| == |ops| + 1 && states[0] == Initial()
    && forall i :: 0 <= i < |ops| ==> StepAt(states, ops, x, i)
  }

  lemma InitialInv(x: Setting)
    ensures Inv(Initial(), x) && ServiceInv(Initial())
  {
    assert forall o :: OwnerId(Initial(), o).None?;
  }

  lemma {:induction false} RunInv(states: seq<State>, ops: seq<Op>, x: Setting, n: nat)
    requires IsRun(states, ops, x) && n < |states|
    ensures Inv(states[n], x)
  {
    if n == 0 {
      InitialInv(x);
    } else {
      RunInv(states, ops, x, n - 1);
      assert StepAt(states, ops, x, n - 1);
      StepInv(states[n - 1], ops[n - 1], x);
    }
  }

  /** `sandboxes` and `provisioning` never share an id, and the duplicate check after a launch never fires: every commit
      adds its sandbox. */
  lemma LaunchesAreNeverDuplicates(states: seq<State>, ops: seq<Op>, x: Setting, n: nat)
    requires IsRun(states, ops, x) && n < |states|
    ensures states[n].sandboxes !! states[n].provisioning
    ensures n < |ops| && ops[n].OpCommit? ==>
              && ProvisionAt(states[n], ops[n].g, Launched) && ProvisionAt(states[n + 1], ops[n].g, Ended(true))
              && states[n + 1].sandboxes == states[n].sandboxes + {states[n].provisions[ops[n].g].id}
              && states[n].provisions[ops[n].g].id !in states[n].sandboxes
  {
    RunInv(states, ops, x, n);
    if n < |ops| && ops[n].OpCommit? {
      assert StepAt(states, ops, x, n);
      TablesCommit(states[n], ops[n].g);
    }
  }

  /** With a gateway, every registered address belongs to exactly one launched and not yet released sandbox, whose
      address it is; so a release never removes another sandbox's entry. */
  lemma RegisteredAddressesHaveOneOwner(states: seq<State>, ops: seq<Op>, x: Setting, n: nat)
    requires IsRun(states, ops, x) && n < |states| && x.gateway
    ensures var s := states[n];
            && (forall ip :: ip in s.registry ==> Owned(s, ip, x))
            && (forall o, u :: SameAddress(s, o, u, x) ==> o == u)
            && (forall o :: Holds(s, o, x))
    ensures n < |ops| ==>
              forall o :: OwnerId(states[n], o).Some? && OwnerId(states[n + 1], o) == OwnerId(states[n], o) ==>
                var ip := x.ipOf(OwnerId(states[n], o).value);
                ip in states[n + 1].registry && states[n + 1].registry[ip] == OwnerId(states[n], o).value
  {
    RunInv(states, ops, x, n);
    if n < |ops| {
      RunInv(states, ops, x, n + 1);
      forall o | OwnerId(states[n], o).Some? && OwnerId(states[n + 1], o) == OwnerId(states[n], o)
        ensures var ip := x.ipOf(OwnerId(states[n], o).value);
                ip in states[n + 1].registry && states[n + 1].registry[ip] == OwnerId(states[n], o).value
      {
        assert Holds(states[n + 1], o, x);
      }
    }
  }
}

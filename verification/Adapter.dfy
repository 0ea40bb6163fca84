/** The adapter and the gateway registry as the objects they are: each critical section is one method, and each is the
    corresponding step of the provisioning machine. */
module Adapter {
  import opened Seqs
  import opened Text
  import opened Provisioning

  class Registry {
    var byGuestIp: map<Ip, Id>

    constructor ()
      ensures byGuestIp == map[]
    {
      byGuestIp := map[];
    }

    /** Refused, with nothing changed, when the address is taken. */
    method RegisterScope(ip: Ip, id: Id) returns (ok: bool)
      modifies this
      ensures ok <==> ip !in old(byGuestIp)
      ensures byGuestIp == if ok then old(byGuestIp)[ip := id] else old(byGuestIp)
    {
      ok := ip !in byGuestIp;
      if ok {
        byGuestIp := byGuestIp[ip := id];
      }
    }

    method ReleaseScope(ip: Ip)
      modifies this
      ensures byGuestIp == old(byGuestIp) - {ip}
    {
      byGuestIp := byGuestIp - {ip};
    }

    method Lookup(ip: Ip) returns (r: Option<Id>)
      ensures r.Some? <==> ip in byGuestIp
      ensures r.Some? ==> byGuestIp[ip] == r.value
    {
      r := if ip in byGuestIp then Some(byGuestIp[ip]) else None;
    }
  }

  datatype ProvisionError = AlreadyProvisioned | AlreadyProvisioning

  class Adapter {
    const setting: Setting
    const registry: Registry
    /** Live instances with their guest address. */
    var sandboxes: map<Id, Ip>
    var provisioning: set<Id>
    ghost var calls: State
    ghost var states: seq<State>
    ghost var ops: seq<Op>

    ghost function View(): State
      reads this, registry
    {
      calls.(sandboxes := sandboxes.Keys, provisioning := provisioning, registry := registry.byGuestIp)
    }

    /** The adapter's history is a run of the machine, and instances carry their own address. */
    ghost predicate Valid()
      reads this, registry
    {
      && IsRun(states, ops, setting) && states[|ops|] == View()
      && forall id :: id in sandboxes ==> sandboxes[id] == setting.ipOf(id)
    }

    constructor (setting: Setting)
      ensures Valid() && View() == Initial() && this.setting == setting && fresh(registry)
    {
      this.setting := setting;
      registry := new Registry();
      sandboxes, provisioning, calls := map[], {}, Initial();
      states, ops := [Initial()], [];
    }

    method Reserve(id: Id, ghost g: Call) returns (refused: Option<ProvisionError>)
      requires Valid() && Enabled(View(), OpReserve(g, id))
      modifies this`provisioning, this`calls, this`states, this`ops
      ensures Valid() && View() == Provisioning.Reserve(old(View()), g, id)
      ensures refused == if id in old(sandboxes) then Some(AlreadyProvisioned)
                         else if id in old(provisioning) then Some(AlreadyProvisioning) else None
      ensures provisioning == if refused.None? then old(provisioning) + {id} else old(provisioning)
    {
      ghost var before := View();
      if id in sandboxes {
        refused := Some(AlreadyProvisioned);
      } else if id in provisioning {
        refused := Some(AlreadyProvisioning);
      } else {
        refused := None;
        provisioning := provisioning + {id};
      }
      ghost var after := Provisioning.Reserve(before, g, id);
      calls := after;
      ExtendRun(states, ops, setting, OpReserve(g, id));
      states, ops := states + [after], ops + [OpReserve(g, id)];
    }

    /** The launch registers the guest address if there is a gateway; a collision fails it and touches nothing. */
    method RegisterGuest(id: Id, ghost g: Call) returns (ok: bool)
      requires Valid() && Enabled(View(), OpRegister(g)) && calls.provisions[g].id == id
      modifies this`calls, this`states, this`ops, registry
      ensures Valid() && View() == Register(old(View()), g, setting)
      ensures ok <==> !setting.gateway || setting.ipOf(id) !in old(registry.byGuestIp)
    {
      ghost var before := View();
      ok := true;
      if setting.gateway {
        ok := registry.RegisterScope(setting.ipOf(id), id);
      }
      ghost var after := Register(before, g, setting);
      calls := after;
      ExtendRun(states, ops, setting, OpRegister(g));
      states, ops := states + [after], ops + [OpRegister(g)];
    }

    /** The launch failed before it registered, or after: then cleanupAll gives the address back. */
    method LaunchFailed(id: Id, registered: bool, ghost g: Call)
      requires Valid() && Enabled(View(), OpFailLaunch(g)) && calls.provisions[g].id == id
      requires registered == ProvisionAt(View(), g, Registered)
      modifies this`calls, this`states, this`ops, registry
      ensures Valid() && View() == FailLaunch(old(View()), g, setting)
      ensures setting.gateway && registered ==>
                setting.ipOf(id) in old(registry.byGuestIp) && old(registry.byGuestIp)[setting.ipOf(id)] == id
    {
      ghost var before := View();
      RunInv(states, ops, setting, |ops|);
      assert setting.gateway ==> Holds(before, ByProvision(g), setting);
      if setting.gateway && registered {
        registry.ReleaseScope(setting.ipOf(id));
      }
      ghost var after := FailLaunch(before, g, setting);
      calls := after;
      ExtendRun(states, ops, setting, OpFailLaunch(g));
      states, ops := states + [after], ops + [OpFailLaunch(g)];
    }

    /** The guest answered: the launch returns its instance, and no table changes. */
    ghost method Booted(g: Call)
      requires Valid() && Enabled(View(), OpLaunched(g))
      modifies this`calls, this`states, this`ops
      ensures Valid() && View() == At(old(View()), g, old(View()).provisions[g].id, Launched)
    {
      var after := At(View(), g, View().provisions[g].id, Launched);
      calls := after;
      ExtendRun(states, ops, setting, OpLaunched(g));
      states, ops := states + [after], ops + [OpLaunched(g)];
    }

    /** The launch succeeded. The check for a duplicate is there, and never finds one. */
    method CommitInstance(id: Id, ghost g: Call) returns (duplicate: bool)
      requires Valid() && Enabled(View(), OpCommit(g)) && calls.provisions[g].id == id
      modifies this`sandboxes, this`provisioning, this`calls, this`states, this`ops
      ensures Valid() && View() == Commit(old(View()), g) && !duplicate
      ensures sandboxes == old(sandboxes)[id := setting.ipOf(id)] && provisioning == old(provisioning) - {id}
    {
      ghost var before := View();
      RunInv(states, ops, setting, |ops|);
      TablesCommit(before, g);
      provisioning := provisioning - {id};
      duplicate := id in sandboxes;
      if !duplicate {
        sandboxes := sandboxes[id := setting.ipOf(id)];
      }
      ghost var after := Commit(before, g);
      calls := after;
      assert sandboxes.Keys == after.sandboxes;
      ExtendRun(states, ops, setting, OpCommit(g));
      states, ops := states + [after], ops + [OpCommit(g)];
    }

    method AbortProvision(id: Id, ghost g: Call)
      requires Valid() && Enabled(View(), OpAbort(g)) && calls.provisions[g].id == id
      modifies this`provisioning, this`calls, this`states, this`ops
      ensures Valid() && View() == Abort(old(View()), g)
      ensures provisioning == old(provisioning) - {id}
    {
      ghost var before := View();
      provisioning := provisioning - {id};
      ghost var after := Abort(before, g);
      calls := after;
      ExtendRun(states, ops, setting, OpAbort(g));
      states, ops := states + [after], ops + [OpAbort(g)];
    }

    /** TerminateSandbox's critical section; the address to release afterwards, if the sandbox was there. */
    method RemoveInstance(id: Id, ghost g: Call) returns (ip: Option<Ip>)
      requires Valid() && Enabled(View(), OpRemove(g, id))
      modifies this`sandboxes, this`calls, this`states, this`ops
      ensures Valid() && View() == Remove(old(View()), g, id)
      ensures ip == if id in old(sandboxes) then Some(setting.ipOf(id)) else None
      ensures sandboxes == old(sandboxes) - {id}
    {
      ghost var before := View();
      if id in sandboxes {
        ip := Some(sandboxes[id]);
        sandboxes := sandboxes - {id};
      } else {
        ip := None;
      }
      ghost var after := Remove(before, g, id);
      calls := after;
      assert sandboxes.Keys == after.sandboxes;
      ExtendRun(states, ops, setting, OpRemove(g, id));
      states, ops := states + [after], ops + [OpRemove(g, id)];
    }

    /** The rest of TerminateSandbox: with a gateway, the entry that goes is the sandbox's own. */
    method ReleaseGuest(id: Id, ip: Ip, ghost g: Call)
      requires Valid() && g in calls.terminations && calls.terminations[g] == Releasing(id)
      requires ip == setting.ipOf(id)
      modifies this`calls, this`states, this`ops, registry
      ensures Valid() && View() == Release(old(View()), g, setting)
      ensures setting.gateway ==> ip in old(registry.byGuestIp) && old(registry.byGuestIp)[ip] == id
    {
      ghost var before := View();
      RunInv(states, ops, setting, |ops|);
      assert setting.gateway ==> Holds(before, ByTermination(g), setting);
      if setting.gateway {
        registry.ReleaseScope(ip);
      }
      ghost var after := Release(before, g, setting);
      calls := after;
      ExtendRun(states, ops, setting, OpRelease(g));
      states, ops := states + [after], ops + [OpRelease(g)];
    }

    /** One whole call with no other in between. `prepared` says whether everything before the registration worked,
        `booted` whether everything after it did. Either the sandbox is stored and its address registered, or nothing
        has changed. */
    method ProvisionSandbox(requested: string, hasPolicy: bool, prepared: bool, booted: bool, ghost g: Call)
      returns (ok: bool)
      requires Valid() && g !in calls.provisions
      modifies this, registry
      ensures Valid() && provisioning == old(provisioning)
      ensures calls.provisions.Keys <= old(calls.provisions.Keys) + {g} && calls.terminations == old(calls.terminations)
      ensures var id := TrimSpace(requested);
              ok <==> && id != "" && hasPolicy && id !in old(sandboxes) && id !in old(provisioning)
                      && prepared && booted && (setting.gateway ==> setting.ipOf(id) !in old(registry.byGuestIp))
      ensures var id := TrimSpace(requested);
              && sandboxes == (if ok then old(sandboxes)[id := setting.ipOf(id)] else old(sandboxes))
              && registry.byGuestIp == if ok && setting.gateway then old(registry.byGuestIp)[setting.ipOf(id) := id]
                                       else old(registry.byGuestIp)
    {
      var id := TrimSpace(requested);
      if id == "" || !hasPolicy {
        return false;
      }
      var refused := Reserve(id, g);
      if refused.Some? {
        return false;
      }
      ok := Launch(id, prepared, booted, g);
      if !ok {
        AbortProvision(id, g);
        return;
      }
      var duplicate := CommitInstance(id, g);
      ok := !duplicate;
    }

    /** launchSandboxVM, as far as the tables go. */
    method Launch(id: Id, prepared: bool, booted: bool, ghost g: Call) returns (ok: bool)
      requires Valid() && ProvisionAt(View(), g, Launching) && calls.provisions[g].id == id
      modifies this`calls, this`states, this`ops, registry
      ensures Valid()
      ensures ok <==> prepared && booted && (setting.gateway ==> setting.ipOf(id) !in old(registry.byGuestIp))
      ensures View() == At(old(View()), g, id, if ok then Launched else Failing).(registry := registry.byGuestIp)
      ensures registry.byGuestIp == if ok && setting.gateway then old(registry.byGuestIp)[setting.ipOf(id) := id]
                                    else old(registry.byGuestIp)
    {
      FailureUndoesRegistration(View(), g, setting);
      if !prepared {
        LaunchFailed(id, false, g);
        return false;
      }
      ok := RegisterGuest(id, g);
      if ok {
        if booted {
          Booted(g);
        } else {
          LaunchFailed(id, true, g);
          ok := false;
        }
      }
    }

    /** One whole call with no other in between: the sandbox and its own address are gone, nothing else is. Terminating
        an unknown sandbox is no error. */
    method TerminateSandbox(requested: string, ghost g: Call) returns (ok: bool)
      requires Valid() && g !in calls.terminations
      modifies this, registry
      ensures Valid() && provisioning == old(provisioning)
      ensures calls.terminations.Keys <= old(calls.terminations.Keys) + {g} && calls.provisions == old(calls.provisions)
      ensures ok <==> TrimSpace(requested) != ""
      ensures sandboxes == if ok then old(sandboxes) - {TrimSpace(requested)} else old(sandboxes)
      ensures var id := TrimSpace(requested);
              if setting.gateway && ok && id in old(sandboxes) then
                && setting.ipOf(id) in old(registry.byGuestIp) && old(registry.byGuestIp)[setting.ipOf(id)] == id
                && registry.byGuestIp == old(registry.byGuestIp) - {setting.ipOf(id)}
              else registry.byGuestIp == old(registry.byGuestIp)
    {
      var id := TrimSpace(requested);
      if id == "" {
        return false;
      }
      var ip := RemoveInstance(id, g);
      if ip.Some? {
        ReleaseGuest(id, ip.value, g);
      }
      return true;
    }
  }

  lemma ExtendRun(states: seq<State>, ops: seq<Op>, x: Setting, op: Op)
    requires IsRun(states, ops, x) && Enabled(states[|ops|], op)
    ensures IsRun(states + [Apply(states[|ops|], op, x)], ops + [op], x)
  {
    var states', ops' := states + [Apply(states[|ops|], op, x)], ops + [op];
    forall i | 0 <= i < |ops'| ensures StepAt(states', ops', x, i) {
      assert i < |ops| ==> StepAt(states, ops, x, i);
    }
  }
}

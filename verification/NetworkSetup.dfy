/** Running the set-up on a host where any command may fail and where a cleanup has a deadline. */
module NetworkSetup {
  import opened Seqs
  import opened Firewall
  import opened HostNetwork

  const CLEANUP_MILLIS := 5000

  /** The cleanup function a set-up hands out: its commands, and the deadline that was fixed when the set-up began. */
  datatype Teardown = Teardown(commands: seq<Command>, deadline: int)

  lemma {:induction false} BatchSnoc(h: Host, cs: seq<Command>, ran: seq<bool>, c: Command, did: bool)
    requires |ran| == |cs|
    ensures Batch(h, cs + [c], ran + [did]) == if did then Exec(Batch(h, cs, ran), c) else Batch(h, cs, ran)
    decreases |cs|
  {
    if cs != [] {
      assert (cs + [c])[1..] == cs[1..] + [c];
      assert (ran + [did])[1..] == ran[1..] + [did];
      BatchSnoc(if ran[0] then Exec(h, cs[0]) else h, cs[1..], ran[1..], c, did);
    }
  }

  lemma AppendsAdd(table: Table, rules: seq<Rule>, tap: string)
    ensures forall i :: 0 <= i < |rules| ==> Addition(Appends(table, rules)[i], tap)
  {
  }

  /** Every beginning of a set-up only adds things, starting with the TAP. */
  lemma InstallsAdditive(p: Plan, tracking: Tracking, k: nat)
    requires k <= |Installs(p, tracking)|
    ensures Additive(Installs(p, tracking)[..k], p.tap)
  {
    AppendsAdd(Input, InputRules(p), p.tap);
    AppendsAdd(Forward, AllowRules(p, DnsAllowed() + p.allowed) + [DenyRest(p)], p.tap);
    forall i | 1 <= i < |Before(p)| ensures Addition(Before(p)[i], p.tap) {
      if 5 <= i < |Before(p)| - 1 {
        assert Before(p)[i] == Appends(Input, InputRules(p))[i - 5];
      }
    }
    assert Installs(p, tracking)[0] == Before(p)[0] == AddTap(p.tap);
  }

  /** `succeeds` and `clock` say of each command, by its number, whether it would be carried out and when it is
      issued. */
  class Machine {
    const succeeds: nat -> bool
    const clock: nat -> int
    var host: Host
    var issued: nat

    constructor (h: Host, succeeds: nat -> bool, clock: nat -> int)
      ensures host == h && issued == 0 && this.succeeds == succeeds && this.clock == clock
    {
      host, issued := h, 0;
      this.succeeds, this.clock := succeeds, clock;
    }

    /** The `n`-th command is carried out if its context has not expired and nothing goes wrong. */
    predicate Runs(n: nat, deadline: Option<int>) {
      succeeds(n) && (deadline.Some? ==> clock(n) < deadline.value)
    }

    method Run(c: Command, deadline: Option<int>) returns (ok: bool)
      modifies this`host, this`issued
      ensures issued == old(issued) + 1
      ensures ok <==> Runs(old(issued), deadline) && Possible(old(host), c)
      ensures host == if Runs(old(issued), deadline) then Exec(old(host), c) else old(host)
      ensures !ok ==> host == old(host)
    {
      ok := Runs(issued, deadline) && Possible(host, c);
      if ok {
        host := Exec(host, c);
      }
      issued := issued + 1;
    }

    /** Failures are ignored; an expired context makes every remaining command fail. */
    method RunBatch(cs: seq<Command>, deadline: int) returns (ghost ran: seq<bool>)
      modifies this`host, this`issued
      ensures |ran| == |cs| && host == Batch(old(host), cs, ran) && issued == old(issued) + |cs|
      ensures forall i :: 0 <= i < |cs| ==> ran[i] == Runs(old(issued) + i, Some(deadline))
    {
      ran := [];
      for i := 0 to |cs|
        invariant |ran| == i && host == Batch(old(host), cs[..i], ran) && issued == old(issued) + i
        invariant forall j :: 0 <= j < i ==> ran[j] == Runs(old(issued) + j, Some(deadline))
      {
        BatchSnoc(old(host), cs[..i], ran, cs[i], Runs(issued, Some(deadline)));
        assert cs[..i + 1] == cs[..i] + [cs[i]];
        ran := ran + [Runs(issued, Some(deadline))];
        var _ := Run(cs[i], Some(deadline));
      }
      assert cs[..|cs|] == cs;
    }

    /** Commands in order until one fails; `done` are those carried out. */
    method Try(cs: seq<Command>) returns (ok: bool, done: seq<Command>)
      modifies this`host, this`issued
      ensures done <= cs && (ok <==> done == cs) && host == ExecAll(old(host), done)
      ensures done != [] ==> Possible(old(host), done[0])
      ensures issued >= old(issued)
    {
      done := [];
      for i := 0 to |cs|
        invariant done == cs[..i] && host == ExecAll(old(host), done) && issued >= old(issued)
        invariant i > 0 ==> Possible(old(host), cs[0])
      {
        ok := Run(cs[i], None);
        if !ok {
          return;
        }
        assert cs[..i + 1] == done + [cs[i]];
        ExecAllSnoc(old(host), done, cs[i]);
        done := done + [cs[i]];
      }
      ok := true;
    }

    /** Prefer conntrack, fall back to the older state module. */
    method InstallReturnPath(p: Plan) returns (r: Option<Tracking>)
      modifies this`host, this`issued
      ensures host == if r.Some? then Exec(old(host), Append(Forward, ReturnPath(p, r.value))) else old(host)
      ensures r.Some? ==> r.value == if Runs(old(issued), None) then Conntrack else StateModule
      ensures r.None? <==> !Runs(old(issued), None) && !Runs(old(issued) + 1, None)
      ensures issued >= old(issued)
    {
      var ok := Run(Append(Forward, ReturnPath(p, Conntrack)), None);
      if ok {
        return Some(Conntrack);
      }
      ok := Run(Append(Forward, ReturnPath(p, StateModule)), None);
      r := if ok then Some(StateModule) else None;
    }

    /** The set-up up to its first failure. */
    method Install(p: Plan) returns (ok: bool, done: seq<Command>, tracking: Tracking)
      modifies this`host, this`issued
      ensures done <= Installs(p, tracking) && (ok <==> done == Installs(p, tracking))
      ensures host == ExecAll(old(host), done) && issued >= old(issued)
      ensures done != [] ==> p.tap !in old(host).taps
      ensures tracking == Conntrack || tracking == StateModule
    {
      tracking := Conntrack;
      ok, done := Try(Before(p));
      if !ok {
        assert done <= Installs(p, tracking) && |done| < |Installs(p, tracking)|;
        return;
      }
      var r := InstallReturnPath(p);
      if r.None? {
        ok := false;
        assert done <= Installs(p, tracking) && |done| < |Installs(p, tracking)|;
        return;
      }
      tracking := r.value;
      var step := Append(Forward, ReturnPath(p, tracking));
      ExecAllSnoc(old(host), done, step);
      done := done + [step];
      var rest;
      ok, rest := Try(After(p));
      ExecAllConcat(old(host), done, rest);
      done := done + rest;
    }

    /** setupHostNetworkWithDeps once the policy is resolved. A failed set-up runs its own cleanup at once; it
        leaves the host as it was exactly when every cleanup command is carried out. */
    method SetupHostNetwork(p: Plan) returns (r: Option<Teardown>, ghost done: seq<Command>, ghost tracking: Tracking,
                                              ghost ran: seq<bool>)
      modifies this`host, this`issued
      ensures done <= Installs(p, tracking) && (r.Some? <==> done == Installs(p, tracking))
      ensures tracking.Conntrack? || tracking.StateModule?
      ensures r.Some? ==> SetUp(old(host), host, p)
      ensures r.Some? ==>
                && host == ExecAll(old(host), done) && p.tap !in old(host).taps
                && r.value == Teardown(CleanupOf(done), clock(old(issued)) + 5000)
      ensures r.None? ==>
                && |ran| == |CleanupOf(done)| && host == Batch(ExecAll(old(host), done), CleanupOf(done), ran)
                && (Restored(old(host), host) <==> forall i :: 0 <= i < |ran| ==> ran[i])
    {
      var deadline := clock(issued) + CLEANUP_MILLIS;
      var ok, cmds, used := Install(p);
      done, tracking := cmds, used;
      ran := [];
      InstallsAdditive(p, tracking, |done|);
      assert Installs(p, tracking)[..|done|] == done;
      if ok {
        assert done[0] == AddTap(p.tap);
        SetupLeaves(old(host), p, tracking);
        return Some(Teardown(CleanupOf(cmds), deadline)), done, tracking, ran;
      }
      ran := RunBatch(CleanupOf(cmds), deadline);
      if done != [] {
        CleanupRestoresIff(old(host), done, p.tap, ran);
      }
      r := None;
    }

    /** setupGatewayFirewall: two global INPUT rules, the first taken back if the second cannot be installed. */
    method SetupGatewayFirewall(port: int) returns (r: Option<seq<Command>>)
      modifies this`host, this`issued
      ensures GatewayRule(LoopbackAccept(port)) && GatewayRule(OthersDiscard(port))
      ensures r.Some? ==>
                && host.input == old(host).input + [LoopbackAccept(port), OthersDiscard(port)]
                && r.value == [Delete(Input, OthersDiscard(port)), Delete(Input, LoopbackAccept(port))]
      ensures host == old(host).(input := host.input)
      ensures r.None? ==>
                (Restored(old(host), host) <==> !Runs(old(issued), None) || Runs(old(issued) + 2, None))
    {
      var first, second := LoopbackAccept(port), OthersDiscard(port);
      var ok := Run(Append(Input, first), None);
      if !ok {
        return None;
      }
      ok := Run(Append(Input, second), None);
      if !ok {
        assert host == old(host).(input := old(host).input + [first]);
        TakenBack(old(host), first);
        NotTakenBack(old(host), first);
        var _ := Run(Delete(Input, first), None);
        return None;
      }
      r := Some([Delete(Input, second), Delete(Input, first)]);
    }

    /** The cleanup function, called when the sandbox is taken down. */
    method TearDown(t: Teardown) returns (ghost ran: seq<bool>)
      modifies this`host, this`issued
      ensures |ran| == |t.commands| && host == Batch(old(host), t.commands, ran)
      ensures forall i :: 0 <= i < |ran| ==> ran[i] == Runs(old(issued) + i, Some(t.deadline))
    {
      ran := RunBatch(t.commands, t.deadline);
    }
  }

  /** Deleting the rule that was just appended restores the host. */
  lemma TakenBack(h: Host, r: Rule)
    ensures var h' := Exec(h.(input := h.input + [r]), Delete(Input, r));
            Restored(h, h') && h' == h.(input := h'.input)
  {
    var added := h.(input := h.input + [r]);
    var h' := Exec(added, Delete(Input, r));
    assert r in added.input && h' == added.(input := RemoveFirst(added.input, r));
    RemoveFirstCounts(added.input, r);
    forall t ensures multiset(Chain(h', t)) == multiset(Chain(h, t)) {
      assert multiset(added.input) == multiset(h.input) + multiset{r};
    }
  }

  /** Left in the chain, it shows. */
  lemma NotTakenBack(h: Host, r: Rule)
    ensures !Restored(h, h.(input := h.input + [r]))
  {
    var added := h.(input := h.input + [r]);
    assert Chain(added, Input) == h.input + [r] && Chain(h, Input) == h.input;
    assert multiset(h.input + [r])[r] == multiset(h.input)[r] + 1;
  }

  // ---- What a completed set-up leaves ----

  /** The TAP is there with the host address, up and without IPv6; the host forwards; nothing else about links has
      changed; and a packet that POSTROUTING did not decide before is masqueraded exactly if it comes from the
      guest. */
  ghost predicate SetUp(h: Host, h': Host, p: Plan) {
    && h'.taps == h.taps[p.tap := Link({p.hostIp}, true, false)] && h'.forwarding
    && forall k :: Verdict(h'.postrouting, k)
                   == if Verdict(h.postrouting, k).Some? then Verdict(h.postrouting, k)
                      else if k.source == p.guestIp then Some(Masquerade) else None
  }

  lemma {:induction false} AppendsKeepLinks(h: Host, cs: seq<Command>)
    requires forall i :: 0 <= i < |cs| ==> cs[i].Append?
    ensures ExecAll(h, cs).taps == h.taps && ExecAll(h, cs).forwarding == h.forwarding
  {
    if cs != [] {
      AppendsKeepLinks(h, cs[..|cs| - 1]);
    }
  }

  lemma {:induction false} AppendsElsewhere(h: Host, cs: seq<Command>)
    requires forall i :: 0 <= i < |cs| ==> cs[i].Append? && !cs[i].table.Nat?
    ensures ExecAll(h, cs).postrouting == h.postrouting
  {
    if cs != [] {
      AppendsElsewhere(h, cs[..|cs| - 1]);
    }
  }

  function LinkCommands(p: Plan): seq<Command> {
    [AddTap(p.tap), AddAddress(p.tap, p.hostIp), LinkUp(p.tap), EnableForwarding, DisableIpv6(p.tap)]
  }

  lemma LinksLeft(h: Host, p: Plan)
    requires p.tap !in h.taps
    ensures var h' := ExecAll(h, LinkCommands(p));
            && h'.taps == h.taps[p.tap := Link({p.hostIp}, true, false)] && h'.forwarding
            && h'.postrouting == h.postrouting
  {
    var h1 := Exec(h, AddTap(p.tap));
    var h2 := Exec(h1, AddAddress(p.tap, p.hostIp));
    var h3 := Exec(h2, LinkUp(p.tap));
    assert h3.taps[p.tap] == Link({p.hostIp}, true, true);
    var h5 := Exec(Exec(h3, EnableForwarding), DisableIpv6(p.tap));
    assert h5.taps == h.taps[p.tap := Link({p.hostIp}, true, false)];
    ExecFive(h, AddTap(p.tap), AddAddress(p.tap, p.hostIp), LinkUp(p.tap), EnableForwarding, DisableIpv6(p.tap));
  }

  lemma ExecFive(h: Host, a: Command, b: Command, c: Command, d: Command, e: Command)
    ensures ExecAll(h, [a, b, c, d, e]) == Exec(Exec(Exec(Exec(Exec(h, a), b), c), d), e)
  {
    ExecAllSnoc(h, [], a);
    assert [] + [a] == [a];
    ExecAllSnoc(h, [a], b);
    assert [a] + [b] == [a, b];
    ExecAllSnoc(h, [a, b], c);
    assert [a, b] + [c] == [a, b, c];
    ExecAllSnoc(h, [a, b, c], d);
    assert [a, b, c] + [d] == [a, b, c, d];
    ExecAllSnoc(h, [a, b, c, d], e);
    assert [a, b, c, d] + [e] == [a, b, c, d, e];
  }

  lemma SetupLeavesRules(h: Host, p: Plan, tracking: Tracking)
    requires p.tap !in h.taps
    ensures var h' := ExecAll(h, Installs(p, tracking));
            && h'.taps == h.taps[p.tap := Link({p.hostIp}, true, false)] && h'.forwarding
            && h'.postrouting == h.postrouting + [Masquerading(p)]
  {
    var links, input := LinkCommands(p), Appends(Input, InputRules(p));
    var masquerade := [Append(Nat, Masquerading(p))];
    var rest := [Append(Forward, ReturnPath(p, tracking))] + After(p);
    assert Installs(p, tracking) == links + input + masquerade + rest;
    LinksLeft(h, p);
    ExecAllConcat(h, links, input);
    AppendsKeepLinks(ExecAll(h, links), input);
    AppendsElsewhere(ExecAll(h, links), input);
    ExecAllConcat(h, links + input, masquerade);
    MasqueradeLeft(ExecAll(h, links + input), p);
    ExecAllConcat(h, links + input + masquerade, rest);
    AppendsKeepLinks(ExecAll(h, links + input + masquerade), rest);
    AppendsElsewhere(ExecAll(h, links + input + masquerade), rest);
  }

  lemma SetupLeaves(h: Host, p: Plan, tracking: Tracking)
    requires p.tap !in h.taps
    ensures SetUp(h, ExecAll(h, Installs(p, tracking)), p)
  {
    SetupLeavesRules(h, p, tracking);
    forall k ensures Verdict(ExecAll(h, Installs(p, tracking)).postrouting, k)
        == if Verdict(h.postrouting, k).Some? then Verdict(h.postrouting, k)
           else if k.source == p.guestIp then Some(Masquerade) else None
    {
      VerdictConcat(h.postrouting, [Masquerading(p)], k);
    }
  }

  lemma MasqueradeLeft(h: Host, p: Plan)
    ensures var h' := ExecAll(h, [Append(Nat, Masquerading(p))]);
            h' == h.(postrouting := h.postrouting + [Masquerading(p)])
  {
    ExecAllSnoc(h, [], Append(Nat, Masquerading(p)));
    assert [] + [Append(Nat, Masquerading(p))] == [Append(Nat, Masquerading(p))];
  }

  // ---- The gateway's global rules ----

  /** Once they are in, a packet that INPUT did not decide before is accepted if it goes to the gateway port over tcp
      from the host itself, dropped if it does so from anything but a TAP, and left to later rules otherwise. */
  lemma GatewayVerdict(chain: seq<Rule>, port: int, k: Packet)
    requires Verdict(chain, k).None?
    ensures Verdict(chain + [LoopbackAccept(port), OthersDiscard(port)], k) ==
            if k.protocol != Tcp || k.port != port then None
            else if k.inbound == "lo" then Some(Accept)
            else if IsTap(k.inbound) then None else Some(Discard)
  {
    var rules := [LoopbackAccept(port), OthersDiscard(port)];
    VerdictConcat(chain, rules, k);
    assert rules[1..] == [OthersDiscard(port)];
    assert Verdict(rules, k) == if Matches(rules[0], k) then Some(Accept) else Verdict([OthersDiscard(port)], k);
    assert Verdict([OthersDiscard(port)], k) == if Matches(OthersDiscard(port), k) then Some(Discard) else None;
  }

  function LoopbackAccept(port: int): Rule {
    Bare(Accept).(inbound := On("lo"), protocol := Some(Tcp), port := Some(port))
  }

  function OthersDiscard(port: int): Rule {
    Bare(Discard).(inbound := NotOnPrefix("cr"), protocol := Some(Tcp), port := Some(port))
  }

  lemma {:induction false} ExecAllConcat(h: Host, a: seq<Command>, b: seq<Command>)
    ensures ExecAll(h, a + b) == ExecAll(ExecAll(h, a), b)
  {
    if b == [] {
      assert a + b == a;
    } else {
      assert (a + b)[..|a + b| - 1] == a + b[..|b| - 1];
      ExecAllConcat(h, a, b[..|b| - 1]);
    }
  }

  lemma {:induction false} NothingRan(h: Host, cs: seq<Command>, ran: seq<bool>)
    requires |ran| == |cs| && forall i :: 0 <= i < |ran| ==> !ran[i]
    ensures Batch(h, cs, ran) == h
    decreases |cs|
  {
    if cs != [] {
      NothingRan(h, cs[1..], ran[1..]);
    }
  }

  /** A completed set-up, undone by its own cleanup: the host is restored exactly when each command is issued within
      five seconds of the start of the set-up and carried out; one issued later changes nothing, so a sandbox that
      lived longer keeps its TAP and all its rules on the host, and its TAP cannot be made again. */
  lemma TeardownRestoresIffInTime(h0: Host, p: Plan, tracking: Tracking, started: int, times: seq<int>, ran: seq<bool>)
    requires p.tap !in h0.taps && |ran| == |times| == |CleanupOf(Installs(p, tracking))|
    requires forall i :: 0 <= i < |ran| ==> (ran[i] <==> times[i] < started + 5000)
    ensures var h := ExecAll(h0, Installs(p, tracking));
            var after := Batch(h, CleanupOf(Installs(p, tracking)), ran);
            && (Restored(h0, after) <==> forall i :: 0 <= i < |times| ==> times[i] < started + 5000)
            && ((forall i :: 0 <= i < |times| ==> times[i] >= started + 5000) ==>
                  after == h && !Possible(after, AddTap(p.tap)))
  {
    var cs := Installs(p, tracking);
    InstallsAdditive(p, tracking, |cs|);
    assert cs[..|cs|] == cs;
    CleanupRestoresIff(h0, cs, p.tap, ran);
    AdditionsOnTaps(h0, cs, p.tap);
    if forall i :: 0 <= i < |times| ==> times[i] >= started + 5000 {
      NothingRan(ExecAll(h0, cs), CleanupOf(cs), ran);
    }
  }
}

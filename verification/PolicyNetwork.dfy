/** From a policy to packets: resolving allowed hosts, and what the installed chains then let through. */
module PolicyNetwork {
  import opened Seqs
  import opened Text
  import opened Firewall
  import opened HostNetwork
  import opened NetworkSetup
  import Policy

  /** An address the resolver returns; only IPv4 ones are used. */
  datatype Address = V4(ip: Ip) | V6(ip: Ip)

  /** The resolver: addresses, or an error. */
  type Lookup = string -> Option<seq<Address>>

  predicate Resolvable(lookup: Lookup, host: string) {
    lookup(host).Some? && lookup(host).value != []
  }

  /** `a` is allowed by the `i`-th rule. */
  predicate AllowedBy(rules: seq<Policy.Rule>, lookup: Lookup, i: nat, a: Allowed)
    requires i < |rules|
  {
    && lookup(rules[i].host).Some? && V4(a.dest) in lookup(rules[i].host).value
    && a.port in rules[i].ports && (a.protocol.Tcp? || a.protocol.Udp?)
  }

  ghost predicate Resolved(rules: seq<Policy.Rule>, lookup: Lookup, out: seq<Allowed>) {
    && (forall i, j :: 0 <= i < j < |out| ==> out[i] != out[j])
    && forall a :: a in out <==> exists i :: 0 <= i < |rules| && AllowedBy(rules, lookup, i, a)
  }

  // Loop by loop: what has been added for one address and one port, one address, one rule

  method AddPort(out: seq<Allowed>, dest: Ip, port: int) returns (r: seq<Allowed>)
    requires forall i, j :: 0 <= i < j < |out| ==> out[i] != out[j]
    ensures forall i, j :: 0 <= i < j < |r| ==> r[i] != r[j]
    ensures forall a :: a in r <==>
              a in out || (a.dest == dest && a.port == port && (a.protocol.Tcp? || a.protocol.Udp?))
  {
    r := out;
    if Allowed(Tcp, dest, port) !in r {
      r := r + [Allowed(Tcp, dest, port)];
    }
    if Allowed(Udp, dest, port) !in r {
      r := r + [Allowed(Udp, dest, port)];
    }
  }

  method AddDestination(out: seq<Allowed>, dest: Ip, ports: seq<int>) returns (r: seq<Allowed>)
    requires forall i, j :: 0 <= i < j < |out| ==> out[i] != out[j]
    ensures forall i, j :: 0 <= i < j < |r| ==> r[i] != r[j]
    ensures forall a :: a in r <==>
              a in out || (a.dest == dest && a.port in ports && (a.protocol.Tcp? || a.protocol.Udp?))
  {
    r := out;
    for k := 0 to |ports|
      invariant forall i, j :: 0 <= i < j < |r| ==> r[i] != r[j]
      invariant forall a :: a in r <==>
                  a in out || (a.dest == dest && a.port in ports[..k] && (a.protocol.Tcp? || a.protocol.Udp?))
    {
      r := AddPort(r, dest, ports[k]);
      assert ports[..k + 1] == ports[..k] + [ports[k]];
    }
    assert ports[..|ports|] == ports;
  }

  method AddRule(out: seq<Allowed>, ips: seq<Address>, ports: seq<int>) returns (r: seq<Allowed>)
    requires forall i, j :: 0 <= i < j < |out| ==> out[i] != out[j]
    ensures forall i, j :: 0 <= i < j < |r| ==> r[i] != r[j]
    ensures forall a :: a in r <==>
              a in out || (V4(a.dest) in ips && a.port in ports && (a.protocol.Tcp? || a.protocol.Udp?))
  {
    r := out;
    for k := 0 to |ips|
      invariant forall i, j :: 0 <= i < j < |r| ==> r[i] != r[j]
      invariant forall a :: a in r <==>
                  a in out || (V4(a.dest) in ips[..k] && a.port in ports && (a.protocol.Tcp? || a.protocol.Udp?))
    {
      assert ips[..k + 1] == ips[..k] + [ips[k]];
      if ips[k].V4? {
        r := AddDestination(r, ips[k].ip, ports);
      }
    }
    assert ips[..|ips|] == ips;
  }

  /** resolveForwardRules: no duplicates, and exactly the triples some rule allows; the first rule whose host has no
      address or cannot be resolved makes it fail. */
  method ResolveForwardRules(rules: seq<Policy.Rule>, lookup: Lookup) returns (r: Result<seq<Allowed>, string>)
    ensures r.Ok? ==> Resolved(rules, lookup, r.value)
    ensures r.Ok? <==> forall i :: 0 <= i < |rules| ==> Resolvable(lookup, rules[i].host)
    ensures r.Err? ==> exists i :: 0 <= i < |rules| && rules[i].host == r.error && !Resolvable(lookup, r.error)
                                   && forall j :: 0 <= j < i ==> Resolvable(lookup, rules[j].host)
  {
    var out := [];
    for i := 0 to |rules|
      invariant forall j :: 0 <= j < i ==> Resolvable(lookup, rules[j].host)
      invariant forall a, b :: 0 <= a < b < |out| ==> out[a] != out[b]
      invariant forall a :: a in out <==> exists j :: 0 <= j < i && AllowedBy(rules, lookup, j, a)
    {
      var ips := lookup(rules[i].host);
      if ips.None? || ips.value == [] {
        return Err(rules[i].host);
      }
      ghost var before := out;
      out := AddRule(out, ips.value, rules[i].ports);
      forall a ensures a in out <==> exists j :: 0 <= j < i + 1 && AllowedBy(rules, lookup, j, a) {
        assert a in out <==> a in before || AllowedBy(rules, lookup, i, a);
      }
    }
    r := Ok(out);
  }

  // ---- What the installed rules mean ----

  predicate DnsPacket(k: Packet) {
    (k.protocol.Tcp? || k.protocol.Udp?) && k.dest == "1.1.1.1" && k.port == 53
  }

  predicate GatewayPacket(p: Plan, k: Packet) {
    p.gatewayPort > 0 && k.source == p.guestIp && k.protocol.Tcp? && k.port == p.gatewayPort
  }

  lemma InputVerdict(p: Plan, k: Packet)
    requires k.inbound == p.tap
    ensures Verdict(InputRules(p), k) == Some(if GatewayPacket(p, k) then Accept else Discard)
  {
    var gateway := if p.gatewayPort > 0 then [GatewayAccept(p)] else [];
    VerdictConcat([AntiSpoof(p)] + gateway, [DenyRest(p)], k);
    VerdictConcat([AntiSpoof(p)], gateway, k);
    assert Verdict([AntiSpoof(p)], k) == if k.source != p.guestIp then Some(Discard) else None;
    assert Verdict([GatewayAccept(p)], k) == if Matches(GatewayAccept(p), k) then Some(Accept) else None;
    assert Verdict([DenyRest(p)], k) == Some(Discard);
  }

  lemma {:induction false} AllowVerdict(p: Plan, allowed: seq<Allowed>, k: Packet)
    requires k.inbound == p.tap
    ensures Verdict(AllowRules(p, allowed), k) == if Allowed(k.protocol, k.dest, k.port) in allowed then Some(Accept)
              else None
  {
    if allowed != [] {
      assert AllowRules(p, allowed)[1..] == AllowRules(p, allowed[1..]);
      AllowVerdict(p, allowed[1..], k);
      assert allowed == [allowed[0]] + allowed[1..];
    }
  }

  lemma ForwardVerdict(p: Plan, tracking: Tracking, k: Packet)
    requires k.inbound == p.tap && k.outbound != p.tap
    ensures Verdict(ForwardRules(p, tracking), k) ==
            Some(if DnsPacket(k) || Allowed(k.protocol, k.dest, k.port) in p.allowed then Accept else Discard)
  {
    var allow := AllowRules(p, DnsAllowed() + p.allowed);
    VerdictConcat([ReturnPath(p, tracking)] + allow, [DenyRest(p)], k);
    VerdictConcat([ReturnPath(p, tracking)], allow, k);
    AllowVerdict(p, DnsAllowed() + p.allowed, k);
    assert Verdict([ReturnPath(p, tracking)], k) == None;
    assert Verdict([DenyRest(p)], k) == Some(Discard);
    DnsAllowedHas(k);
  }

  /** Towards the guest: packets of established connections pass, and nothing else is decided here. */
  lemma ReturnVerdict(p: Plan, tracking: Tracking, k: Packet)
    requires k.outbound == p.tap && k.inbound != p.tap && (tracking.Conntrack? || tracking.StateModule?)
    ensures Verdict(ForwardRules(p, tracking), k) == if k.established then Some(Accept) else None
  {
    NoVerdict(ForwardRules(p, tracking), k);
    var allow := AllowRules(p, DnsAllowed() + p.allowed);
    if k.established {
      assert Matches(ReturnPath(p, tracking), k);
    } else {
      forall r | r in ForwardRules(p, tracking) ensures !Matches(r, k) {
        assert r == ReturnPath(p, tracking) || r in allow || r == DenyRest(p);
      }
    }
  }

  lemma DnsAllowedHas(k: Packet)
    ensures Allowed(k.protocol, k.dest, k.port) in DnsAllowed() <==> DnsPacket(k)
  {
  }

  // ---- The chains a set-up produces ----

  lemma {:induction false} ChainAfterConcat(chain: seq<Rule>, a: seq<Command>, b: seq<Command>, t: Table)
    ensures ChainAfter(chain, a + b, t) == ChainAfter(ChainAfter(chain, a, t), b, t)
  {
    if b == [] {
      assert a + b == a;
    } else {
      assert (a + b)[..|a + b| - 1] == a + b[..|b| - 1];
      ChainAfterConcat(chain, a, b[..|b| - 1], t);
    }
  }

  lemma {:induction false} ChainAfterAppends(chain: seq<Rule>, rules: seq<Rule>, table: Table, t: Table)
    ensures ChainAfter(chain, Appends(table, rules), t) == if t == table then chain + rules else chain
  {
    if rules != [] {
      var init := rules[..|rules| - 1];
      assert Appends(table, rules)[..|rules| - 1] == Appends(table, init);
      ChainAfterAppends(chain, init, table, t);
      assert rules == init + [rules[|rules| - 1]];
    }
  }

  lemma {:induction false} ChainAfterOthers(chain: seq<Rule>, cs: seq<Command>, t: Table)
    requires forall i :: 0 <= i < |cs| ==> !cs[i].Append? && !cs[i].Delete?
    ensures ChainAfter(chain, cs, t) == chain
  {
    if cs != [] {
      ChainAfterOthers(chain, cs[..|cs| - 1], t);
    }
  }

  function Preparation(p: Plan): seq<Command> {
    [AddTap(p.tap), AddAddress(p.tap, p.hostIp), LinkUp(p.tap), EnableForwarding, DisableIpv6(p.tap)]
  }

  lemma ChainsBefore(chain: seq<Rule>, p: Plan, t: Table)
    requires !t.Nat?
    ensures ChainAfter(chain, Before(p), t) == if t.Input? then chain + InputRules(p) else chain
  {
    var prep, input, masquerade := Preparation(p), Appends(Input, InputRules(p)), Appends(Nat, [Masquerading(p)]);
    assert masquerade == [Append(Nat, Masquerading(p))];
    assert Before(p) == prep + input + masquerade;
    ChainAfterOthers(chain, prep, t);
    ChainAfterConcat(chain, prep, input, t);
    ChainAfterAppends(chain, InputRules(p), Input, t);
    ChainAfterConcat(chain, prep + input, masquerade, t);
    ChainAfterAppends(ChainAfter(chain, prep + input, t), [Masquerading(p)], Nat, t);
  }

  /** A set-up appends its rules to whatever is in the chains. */
  lemma ChainsInstalledOn(chain: seq<Rule>, p: Plan, tracking: Tracking, t: Table)
    requires !t.Nat?
    ensures ChainAfter(chain, Installs(p, tracking), t) == chain + if t.Input? then InputRules(p)
              else ForwardRules(p, tracking)
  {
    var path := [ReturnPath(p, tracking)];
    var allow := AllowRules(p, DnsAllowed() + p.allowed) + [DenyRest(p)];
    assert Appends(Forward, path) == [Append(Forward, ReturnPath(p, tracking))];
    assert Installs(p, tracking) == Before(p) + Appends(Forward, path) + Appends(Forward, allow);
    ChainsBefore(chain, p, t);
    ChainAfterTwice(chain, Before(p), path, allow, t);
    if t.Forward? {
      assert path + allow == ForwardRules(p, tracking);
      assert chain + path + allow == chain + (path + allow);
    }
  }

  lemma ChainAfterTwice(chain: seq<Rule>, cs: seq<Command>, a: seq<Rule>, b: seq<Rule>, t: Table)
    ensures var before := ChainAfter(chain, cs, t);
            ChainAfter(chain, cs + Appends(Forward, a) + Appends(Forward, b), t)
            == if t.Forward? then before + a + b else before
  {
    var before := ChainAfter(chain, cs, t);
    ChainAfterConcat(chain, cs, Appends(Forward, a), t);
    ChainAfterAppends(before, a, Forward, t);
    ChainAfterConcat(chain, cs + Appends(Forward, a), Appends(Forward, b), t);
    ChainAfterAppends(if t.Forward? then before + a else before, b, Forward, t);
  }

  lemma ChainsInstalled(p: Plan, tracking: Tracking, t: Table)
    requires !t.Nat?
    ensures ChainAfter([], Installs(p, tracking), t) == if t.Input? then InputRules(p) else ForwardRules(p, tracking)
  {
    ChainsInstalledOn([], p, tracking, t);
  }

  // ---- Whole-host theorems ----

  /** The filter chains hold nothing for this TAP or this packet before the sandboxes start. */
  ghost predicate Untouched(h: Host, tap: string, k: Packet) {
    && Own(h.input, tap) == [] && Own(h.forward, tap) == []
    && (forall r :: r in h.input ==> !Matches(r, k)) && (forall r :: r in h.forward ==> !Matches(r, k))
  }

  ghost predicate Interleaving(h: Host, acts: seq<Act>, tap: string, k: Packet) {
    && (forall i :: 0 <= i < |acts| ==> Disciplined(acts[i]))
    && IsTap(tap) && k.inbound == tap && !IsTap(k.outbound) && Untouched(h, tap, k)
  }

  /** One life of a network: a set-up that carried out its first `n` commands, and the cleanup after it failed or
      ended, of which the commands marked in `ran` were carried out. A teardown that comes too late runs none of
      them. */
  datatype Life = Life(plan: Plan, tracking: Tracking, n: nat, ran: seq<bool>)

  predicate LifeOn(l: Life, tap: string) {
    && l.plan.tap == tap && l.n <= |Installs(l.plan, l.tracking)|
    && |l.ran| == |CleanupOf(Installs(l.plan, l.tracking)[..l.n])|
  }

  /** The commands of a list that were carried out. */
  function Carried(cs: seq<Command>, ran: seq<bool>): seq<Command>
    requires |ran| == |cs|
    decreases |cs|
  {
    if cs == [] then [] else (if ran[0] then [cs[0]] else []) + Carried(cs[1..], ran[1..])
  }

  function OneLife(l: Life, tap: string): seq<Command>
    requires LifeOn(l, tap)
  {
    var cs := Installs(l.plan, l.tracking)[..l.n];
    cs + Carried(CleanupOf(cs), l.ran)
  }

  /** What the lives of one TAP do, one after the other. */
  function LifeCommands(lives: seq<Life>, tap: string): seq<Command>
    requires forall i :: 0 <= i < |lives| ==> LifeOn(lives[i], tap)
  {
    if lives == [] then []
    else
      assert LifeOn(lives[|lives| - 1], tap);
      LifeCommands(lives[..|lives| - 1], tap) + OneLife(lives[|lives| - 1], tap)
  }

  /** The rules a life leaves in a chain: those whose deletion was not carried out. */
  function LeftBy(l: Life, tap: string, t: Table): multiset<Rule>
    requires LifeOn(l, tap)
  {
    AddedTo(Left(Installs(l.plan, l.tracking)[..l.n], l.ran), t)
  }

  function LeftOver(lives: seq<Life>, tap: string, t: Table): multiset<Rule>
    requires forall i :: 0 <= i < |lives| ==> LifeOn(lives[i], tap)
  {
    if lives == [] then multiset{}
    else
      assert LifeOn(lives[|lives| - 1], tap);
      LeftOver(lives[..|lives| - 1], tap, t) + LeftBy(lives[|lives| - 1], tap, t)
  }

  lemma {:induction false} BatchIsCarried(chain: seq<Rule>, cs: seq<Command>, ran: seq<bool>, t: Table)
    requires |ran| == |cs|
    ensures BatchChain(chain, cs, ran, t) == ChainAfter(chain, Carried(cs, ran), t)
    decreases |cs|
  {
    if cs != [] {
      var rest := Carried(cs[1..], ran[1..]);
      if ran[0] {
        BatchIsCarried(OnChain(chain, cs[0], t), cs[1..], ran[1..], t);
        ChainAfterConcat(chain, [cs[0]], rest, t);
        ChainAfterOne(chain, cs[0], t);
      } else {
        BatchIsCarried(chain, cs[1..], ran[1..], t);
        assert [] + rest == rest;
      }
    }
  }

  lemma ChainAfterOne(chain: seq<Rule>, c: Command, t: Table)
    ensures ChainAfter(chain, [c], t) == OnChain(chain, c, t)
  {
    assert [c][..0] == [];
  }

  /** One life on top of whatever is in the chain adds exactly what it leaves. */
  lemma LifeAdds(chain: seq<Rule>, l: Life, tap: string, t: Table)
    requires LifeOn(l, tap)
    ensures multiset(ChainAfter(chain, OneLife(l, tap), t)) == multiset(chain) + LeftBy(l, tap, t)
  {
    var cs := Installs(l.plan, l.tracking)[..l.n];
    var installed := ChainAfter(chain, cs, t);
    InstallsAdditive(l.plan, l.tracking, l.n);
    AdditionsOnChain(chain, cs, tap, t);
    forall x ensures multiset(BatchChain(installed, CleanupOf(cs), l.ran, t))[x]
        == (multiset(chain) + LeftBy(l, tap, t))[x] {
      CleanupLeavesOnChain(installed, multiset(chain)[x], x, cs, l.ran, t);
    }
    BatchIsCarried(installed, CleanupOf(cs), l.ran, t);
    ChainAfterConcat(chain, cs, Carried(CleanupOf(cs), l.ran), t);
  }

  lemma {:induction false} LivesLeave(lives: seq<Life>, tap: string, t: Table)
    requires forall i :: 0 <= i < |lives| ==> LifeOn(lives[i], tap)
    ensures multiset(ChainAfter([], LifeCommands(lives, tap), t)) == LeftOver(lives, tap, t)
  {
    if lives != [] {
      var l, past := lives[|lives| - 1], LifeCommands(lives[..|lives| - 1], tap);
      assert LifeOn(l, tap);
      LivesLeave(lives[..|lives| - 1], tap, t);
      LifeAdds(ChainAfter([], past, t), l, tap, t);
      ChainAfterConcat([], past, OneLife(l, tap), t);
    }
  }

  /** A life whose cleanup was carried out to the end leaves nothing. */
  lemma CleanLifeLeavesNothing(l: Life, tap: string, t: Table)
    requires LifeOn(l, tap) && forall i :: 0 <= i < |l.ran| ==> l.ran[i]
    ensures LeftBy(l, tap, t) == multiset{}
  {
    NothingLeft(Installs(l.plan, l.tracking)[..l.n], l.ran);
  }

  /** A completed set-up whose teardown came too late leaves all its rules. */
  lemma LateLifeLeavesAll(l: Life, tap: string)
    requires LifeOn(l, tap) && l.n == |Installs(l.plan, l.tracking)| && forall i :: 0 <= i < |l.ran| ==> !l.ran[i]
    ensures LeftBy(l, tap, Input) == multiset(InputRules(l.plan))
    ensures LeftBy(l, tap, Forward) == multiset(ForwardRules(l.plan, l.tracking))
  {
    var cs := Installs(l.plan, l.tracking);
    assert cs[..l.n] == cs;
    forall t: Table | !t.Nat? ensures LeftBy(l, tap, t) == multiset(ChainAfter([], cs, t)) {
      NothingRanOnChain(ChainAfter([], cs, t), CleanupOf(cs), l.ran, t);
      BatchIsCarried(ChainAfter([], cs, t), CleanupOf(cs), l.ran, t);
      ChainAfterConcat([], cs, Carried(CleanupOf(cs), l.ran), t);
      LifeAdds([], l, tap, t);
    }
    ChainsInstalled(l.plan, l.tracking, Input);
    ChainsInstalled(l.plan, l.tracking, Forward);
  }

  lemma {:induction false} NothingRanOnChain(chain: seq<Rule>, cs: seq<Command>, ran: seq<bool>, t: Table)
    requires |ran| == |cs| && forall i :: 0 <= i < |ran| ==> !ran[i]
    ensures BatchChain(chain, cs, ran, t) == chain
    decreases |cs|
  {
    if cs != [] {
      NothingRanOnChain(chain, cs[1..], ran[1..], t);
    }
  }

  lemma {:induction false} NoVerdict(chain: seq<Rule>, k: Packet)
    ensures Verdict(chain, k).None? <==> forall r :: r in chain ==> !Matches(r, k)
  {
    if chain != [] {
      assert chain[0] in chain;
      NoVerdict(chain[1..], k);
      assert chain == [chain[0]] + chain[1..];
    }
  }

  /** What the past lives of a TAP still say about a packet: something exactly if a rule they left matches it. */
  ghost function PastVerdict(past: seq<Life>, tap: string, t: Table, k: Packet): Option<Target>
    requires forall i :: 0 <= i < |past| ==> LifeOn(past[i], tap)
  {
    Verdict(ChainAfter([], LifeCommands(past, tap), t), k)
  }

  lemma PastIsLeftOver(past: seq<Life>, tap: string, t: Table, k: Packet)
    requires forall i :: 0 <= i < |past| ==> LifeOn(past[i], tap)
    ensures PastVerdict(past, tap, t, k).None? <==> forall r :: r in LeftOver(past, tap, t) ==> !Matches(r, k)
  {
    var chain := ChainAfter([], LifeCommands(past, tap), t);
    LivesLeave(past, tap, t);
    NoVerdict(chain, k);
    assert forall r :: r in chain <==> r in multiset(chain);
  }

  /** After any past lives of a TAP, whatever other sandboxes and the gateway did meanwhile, the chains decide a packet
      from it exactly if a rule matches whose deletion was not carried out; when every cleanup was, they never do. */
  lemma {:induction false} RemovedSandbox(h: Host, acts: seq<Act>, tap: string, past: seq<Life>, k: Packet)
    requires Interleaving(h, acts, tap, k) && forall i :: 0 <= i < |past| ==> LifeOn(past[i], tap)
    requires Doings(acts, Some(tap)) == LifeCommands(past, tap)
    ensures var h' := ExecAll(h, Commands(acts));
            && (Verdict(h'.input, k).None? <==> forall r :: r in LeftOver(past, tap, Input) ==> !Matches(r, k))
            && (Verdict(h'.forward, k).None? <==> forall r :: r in LeftOver(past, tap, Forward) ==> !Matches(r, k))
  {
    Independence(h, acts, Input, tap, k);
    Independence(h, acts, Forward, tap, k);
    PastIsLeftOver(past, tap, Input, k);
    PastIsLeftOver(past, tap, Forward, k);
  }

  /** After any past lives of its TAP, a sandbox that is set up, among any interleaving with others and the gateway:
      what earlier lives left behind decides first; a packet none of it matches may reach on the host only the
      gateway port, over tcp and from the assigned address, and beyond the host only DNS and the resolved allow
      list. */
  lemma {:induction false} RunningSandbox(h: Host, acts: seq<Act>, past: seq<Life>, p: Plan, tracking: Tracking,
                                          k: Packet)
    requires Interleaving(h, acts, p.tap, k) && forall i :: 0 <= i < |past| ==> LifeOn(past[i], p.tap)
    requires Doings(acts, Some(p.tap)) == LifeCommands(past, p.tap) + Installs(p, tracking)
    ensures var h' := ExecAll(h, Commands(acts));
            && Verdict(h'.input, k) == Decided(PastVerdict(past, p.tap, Input, k), GatewayPacket(p, k))
            && Verdict(h'.forward, k) == Decided(PastVerdict(past, p.tap, Forward, k),
                                                 DnsPacket(k) || Allowed(k.protocol, k.dest, k.port) in p.allowed)
    ensures PastVerdict(past, p.tap, Input, k).None? <==> forall r :: r in LeftOver(past, p.tap, Input) ==>
              !Matches(r, k)
    ensures PastVerdict(past, p.tap, Forward, k).None? <==> forall r :: r in LeftOver(past, p.tap, Forward) ==>
              !Matches(r, k)
  {
    OwnVerdict(past, p, tracking, Input, k);
    OwnVerdict(past, p, tracking, Forward, k);
    Independence(h, acts, Input, p.tap, k);
    Independence(h, acts, Forward, p.tap, k);
    InputVerdict(p, k);
    ForwardVerdict(p, tracking, k);
    PastIsLeftOver(past, p.tap, Input, k);
    PastIsLeftOver(past, p.tap, Forward, k);
  }

  /** An earlier verdict stands; otherwise the packet is accepted or dropped. */
  function Decided(earlier: Option<Target>, accept: bool): Option<Target> {
    if earlier.Some? then earlier else Some(if accept then Accept else Discard)
  }

  lemma OwnVerdict(past: seq<Life>, p: Plan, tracking: Tracking, t: Table, k: Packet)
    requires !t.Nat? && forall i :: 0 <= i < |past| ==> LifeOn(past[i], p.tap)
    ensures var rules := if t.Input? then InputRules(p) else ForwardRules(p, tracking);
            Verdict(ChainAfter([], LifeCommands(past, p.tap) + Installs(p, tracking), t), k)
            == if PastVerdict(past, p.tap, t, k).Some? then PastVerdict(past, p.tap, t, k) else Verdict(rules, k)
  {
    var left := ChainAfter([], LifeCommands(past, p.tap), t);
    ChainAfterConcat([], LifeCommands(past, p.tap), Installs(p, tracking), t);
    ChainsInstalledOn(left, p, tracking, t);
    VerdictConcat(left, if t.Input? then InputRules(p) else ForwardRules(p, tracking), k);
  }

  // ---- Towards the guest ----

  /** What a rule of the TAP's FORWARD chain can do for a packet towards the guest: let an established one through. */
  predicate LetsRepliesIn(r: Rule, tap: string) {
    || r.inbound == On(tap)
    || (r == Bare(Accept).(outbound := Some(tap), tracking := r.tracking) && !r.tracking.NoTracking?)
  }

  ghost predicate AllLetRepliesIn(chain: seq<Rule>, tap: string) {
    forall r :: r in chain ==> LetsRepliesIn(r, tap)
  }

  lemma SetupLetsRepliesIn(p: Plan, tracking: Tracking)
    requires tracking.Conntrack? || tracking.StateModule?
    ensures AllLetRepliesIn(ForwardRules(p, tracking), p.tap)
  {
    var allow := AllowRules(p, DnsAllowed() + p.allowed);
    forall r | r in ForwardRules(p, tracking) ensures LetsRepliesIn(r, p.tap) {
      assert r == ReturnPath(p, tracking) || r in allow || r == DenyRest(p);
    }
  }

  /** Such rules never drop a packet towards the guest, and let in only established ones. */
  lemma {:induction false} RepliesVerdict(chain: seq<Rule>, tap: string, k: Packet)
    requires AllLetRepliesIn(chain, tap) && k.outbound == tap && k.inbound != tap
    ensures Verdict(chain, k).Some? ==> k.established && Verdict(chain, k) == Some(Accept)
  {
    if chain != [] {
      assert LetsRepliesIn(chain[0], tap);
      RepliesVerdict(chain[1..], tap, k);
    }
  }

  ghost predicate Tracked(lives: seq<Life>) {
    forall i :: 0 <= i < |lives| ==> lives[i].tracking.Conntrack? || lives[i].tracking.StateModule?
  }

  /** Whatever a life leaves in FORWARD is of that kind. */
  lemma LeftLetsRepliesIn(l: Life, tap: string)
    requires LifeOn(l, tap) && (l.tracking.Conntrack? || l.tracking.StateModule?)
    ensures forall r :: r in LeftBy(l, tap, Forward) ==> LetsRepliesIn(r, tap)
  {
    var cs := Installs(l.plan, l.tracking);
    SetupLetsRepliesIn(l.plan, l.tracking);
    InstallsAdditive(l.plan, l.tracking, |cs|);
    assert cs[..|cs|] == cs;
    AdditionsOnChain([], cs, tap, Forward);
    ChainsInstalled(l.plan, l.tracking, Forward);
    LeftIsAdded(cs[..l.n], l.ran, Forward);
    AddedPrefix(cs, l.n, Forward);
    forall r | r in LeftBy(l, tap, Forward) ensures LetsRepliesIn(r, tap) {
      assert r in AddedTo(cs, Forward);
      assert r in multiset(ForwardRules(l.plan, l.tracking));
    }
  }

  lemma {:induction false} LeftIsAdded(cs: seq<Command>, ran: seq<bool>, t: Table)
    requires |ran| == |CleanupOf(cs)|
    ensures AddedTo(Left(cs, ran), t) <= AddedTo(cs, t)
    decreases |cs|
  {
    if cs != [] {
      var init, c := cs[..|cs| - 1], cs[|cs| - 1];
      if Undo(c).None? {
        NoUndoStep(cs, ran, t);
        LeftIsAdded(init, ran, t);
      } else {
        LeftStep(cs, ran, t);
        LeftIsAdded(init, ran[1..], t);
        AddedToSnoc(init, c, t);
        assert init + [c] == cs;
      }
    }
  }

  lemma {:induction false} AddedPrefix(cs: seq<Command>, n: nat, t: Table)
    requires n <= |cs|
    ensures AddedTo(cs[..n], t) <= AddedTo(cs, t)
    decreases |cs|
  {
    if n < |cs| {
      AddedPrefix(cs[..|cs| - 1], n, t);
      assert cs[..|cs| - 1][..n] == cs[..n];
    } else {
      assert cs[..n] == cs;
    }
  }

  lemma {:induction false} PastLetsRepliesIn(past: seq<Life>, tap: string)
    requires (forall i :: 0 <= i < |past| ==> LifeOn(past[i], tap)) && Tracked(past)
    ensures forall r :: r in LeftOver(past, tap, Forward) ==> LetsRepliesIn(r, tap)
  {
    if past != [] {
      assert LifeOn(past[|past| - 1], tap);
      PastLetsRepliesIn(past[..|past| - 1], tap);
      LeftLetsRepliesIn(past[|past| - 1], tap);
    }
  }

  lemma PastVerdictIn(past: seq<Life>, tap: string, k: Packet)
    requires (forall i :: 0 <= i < |past| ==> LifeOn(past[i], tap)) && Tracked(past)
    requires k.outbound == tap && k.inbound != tap
    ensures PastVerdict(past, tap, Forward, k).Some? ==>
              k.established && PastVerdict(past, tap, Forward, k) == Some(Accept)
  {
    var chain := ChainAfter([], LifeCommands(past, tap), Forward);
    LivesLeave(past, tap, Forward);
    PastLetsRepliesIn(past, tap);
    forall r | r in chain ensures LetsRepliesIn(r, tap) {
      assert r in multiset(chain);
    }
    RepliesVerdict(chain, tap, k);
  }

  /** A packet from elsewhere to this TAP, among any interleaving of disciplined acts. */
  ghost predicate Inwards(h: Host, acts: seq<Act>, tap: string, k: Packet) {
    && (forall i :: 0 <= i < |acts| ==> Disciplined(acts[i]))
    && IsTap(tap) && k.outbound == tap && !IsTap(k.inbound) && Untouched(h, tap, k)
  }

  /** Towards a set-up sandbox, whatever earlier lives of its TAP left and whatever others do: the FORWARD chain accepts
      exactly the packets of established connections, and new connections from outside are left to the policy. */
  lemma {:induction false} TowardsTheGuest(h: Host, acts: seq<Act>, past: seq<Life>, p: Plan, tracking: Tracking,
                                           k: Packet)
    requires Inwards(h, acts, p.tap, k) && forall i :: 0 <= i < |past| ==> LifeOn(past[i], p.tap)
    requires Tracked(past) && (tracking.Conntrack? || tracking.StateModule?)
    requires Doings(acts, Some(p.tap)) == LifeCommands(past, p.tap) + Installs(p, tracking)
    ensures Verdict(ExecAll(h, Commands(acts)).forward, k) == if k.established then Some(Accept) else None
  {
    Independence(h, acts, Forward, p.tap, k);
    OwnVerdict(past, p, tracking, Forward, k);
    PastVerdictIn(past, p.tap, k);
    ReturnVerdict(p, tracking, k);
  }

  /** And towards a TAP whose sandboxes are gone a new connection is never accepted. */
  lemma {:induction false} TowardsAGoneGuest(h: Host, acts: seq<Act>, tap: string, past: seq<Life>, k: Packet)
    requires Inwards(h, acts, tap, k) && (forall i :: 0 <= i < |past| ==> LifeOn(past[i], tap)) && Tracked(past)
    requires Doings(acts, Some(tap)) == LifeCommands(past, tap)
    ensures Verdict(ExecAll(h, Commands(acts)).forward, k).Some? ==>
              k.established && Verdict(ExecAll(h, Commands(acts)).forward, k) == Some(Accept)
  {
    Independence(h, acts, Forward, tap, k);
    PastVerdictIn(past, tap, k);
  }

  predicate DisciplinedFor(tap: string, c: Command) {
    Disciplined(Act(Some(tap), c)) && (Undo(c).Some? ==> Disciplined(Act(Some(tap), Undo(c).value)))
  }

  lemma BeforeIsDisciplined(p: Plan, i: nat)
    requires IsTap(p.tap) && i < |Before(p)|
    ensures DisciplinedFor(p.tap, Before(p)[i])
  {
    var input := InputRules(p);
    if 5 <= i < 5 + |input| {
      assert Before(p)[i] == Append(Input, input[i - 5]);
      assert RuleTap(input[i - 5]) == Some(p.tap);
    }
  }

  lemma AfterIsDisciplined(p: Plan, i: nat)
    requires IsTap(p.tap) && i < |After(p)|
    ensures DisciplinedFor(p.tap, After(p)[i])
  {
    var allow := AllowRules(p, DnsAllowed() + p.allowed);
    var r := if i < |allow| then allow[i] else DenyRest(p);
    assert After(p)[i] == Append(Forward, r);
    assert RuleTap(r) == Some(p.tap);
  }

  /** What a set-up and its cleanup run is disciplined, so the theorems above apply to real interleavings. */
  lemma SetupIsDisciplined(p: Plan, tracking: Tracking, i: nat)
    requires IsTap(p.tap) && i < |Installs(p, tracking)|
    ensures DisciplinedFor(p.tap, Installs(p, tracking)[i])
  {
    var n := |Before(p)|;
    if i < n {
      BeforeIsDisciplined(p, i);
    } else if i == n {
      assert RuleTap(ReturnPath(p, tracking)) == Some(p.tap);
    } else {
      AfterIsDisciplined(p, i - n - 1);
    }
  }

  // ---- From the raw policy ----

  /** The raw policy allows this port on some host that resolves to this address. */
  ghost predicate PolicyAllows(raw: Policy.RawPolicy, lookup: Lookup, k: Packet) {
    && (k.protocol.Tcp? || k.protocol.Udp?)
    && exists host :: Policy.Permits(raw.allow, host, k.port)
                      && lookup(Normal(host)).Some? && V4(k.dest) in lookup(Normal(host)).value
  }

  lemma ResolvedMeansPolicy(raw: Policy.RawPolicy, c: Policy.Compiled, hasher: Policy.Hasher, lookup: Lookup,
                            out: seq<Allowed>, k: Packet)
    requires Policy.CompiledFrom(c, raw, hasher) && Resolved(c.allow, lookup, out)
    ensures Allowed(k.protocol, k.dest, k.port) in out <==> PolicyAllows(raw, lookup, k)
  {
    var a := Allowed(k.protocol, k.dest, k.port);
    if a in out {
      var i :| 0 <= i < |c.allow| && AllowedBy(c.allow, lookup, i, a);
      Policy.CompiledRuleShape(c, raw, hasher, i);
      assert Policy.Permits(c.allow, c.allow[i].host, k.port);
      Policy.CompilePreservesAllows(c, raw, hasher, c.allow[i].host, k.port);
    }
    if PolicyAllows(raw, lookup, k) {
      var host :| Policy.Permits(raw.allow, host, k.port) && lookup(Normal(host)).Some?
          && V4(k.dest) in lookup(Normal(host)).value;
      Policy.CompilePreservesAllows(c, raw, hasher, host, k.port);
      var i :| 0 <= i < |c.allow| && c.allow[i].host == Normal(host) && k.port in c.allow[i].ports;
      assert AllowedBy(c.allow, lookup, i, a);
    }
  }

  /** Policy to chain: compiled, resolved and installed among any interleaving, the FORWARD chain accepts a packet
      from the sandbox to a non-TAP interface that no leftover of earlier lives decides exactly when it is DNS to
      the resolver or the raw policy allows it; in particular when every earlier cleanup was carried out. */
  lemma {:induction false} PolicyMeaning(
      raw: Policy.RawPolicy, c: Policy.Compiled, hasher: Policy.Hasher, lookup: Lookup,
      h: Host, acts: seq<Act>, past: seq<Life>, p: Plan, tracking: Tracking, k: Packet)
    requires Policy.CompiledFrom(c, raw, hasher) && Resolved(c.allow, lookup, p.allowed)
    requires Interleaving(h, acts, p.tap, k) && forall i :: 0 <= i < |past| ==> LifeOn(past[i], p.tap)
    requires Doings(acts, Some(p.tap)) == LifeCommands(past, p.tap) + Installs(p, tracking)
    ensures Verdict(ExecAll(h, Commands(acts)).forward, k)
            == Decided(PastVerdict(past, p.tap, Forward, k), DnsPacket(k) || PolicyAllows(raw, lookup, k))
    ensures (forall i, j :: 0 <= i < |past| && 0 <= j < |past[i].ran| ==> past[i].ran[j]) ==>
              PastVerdict(past, p.tap, Forward, k).None?
  {
    RunningSandbox(h, acts, past, p, tracking, k);
    ResolvedMeansPolicy(raw, c, hasher, lookup, p.allowed, k);
    if forall i, j :: 0 <= i < |past| && 0 <= j < |past[i].ran| ==> past[i].ran[j] {
      CleanLivesLeaveNothing(past, p.tap, Forward);
    }
  }

  lemma {:induction false} CleanLivesLeaveNothing(past: seq<Life>, tap: string, t: Table)
    requires forall i :: 0 <= i < |past| ==> LifeOn(past[i], tap)
    requires forall i, j :: 0 <= i < |past| && 0 <= j < |past[i].ran| ==> past[i].ran[j]
    ensures LeftOver(past, tap, t) == multiset{}
  {
    if past != [] {
      assert LifeOn(past[|past| - 1], tap);
      CleanLivesLeaveNothing(past[..|past| - 1], tap, t);
      CleanLifeLeavesNothing(past[|past| - 1], tap, t);
    }
  }
}

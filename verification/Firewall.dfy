/** The host's packet filter as the backend uses it: first-match chains that many sandboxes append to and delete
    from. */
module Firewall {
  import opened Seqs

  type Ip = string

  datatype Protocol = Tcp | Udp | OtherProtocol
  datatype Target = Accept | Discard | Masquerade
  datatype Table = Input | Forward | Nat
  /** Every source, or one address, or every address but one. */
  datatype Source = AnySource | From(ip: Ip) | NotFrom(ip: Ip)
  /** `-i name`, `! -i prefix+`, or no interface condition. */
  datatype Inbound = AnyInbound | On(name: string) | NotOnPrefix(prefix: string)
  /** The two modules that recognise packets of established connections. */
  datatype Tracking = NoTracking | Conntrack | StateModule

  datatype Rule = Rule(
    inbound: Inbound,
    outbound: Option<string>,
    source: Source,
    protocol: Option<Protocol>,
    dest: Option<Ip>,
    port: Option<int>,
    tracking: Tracking,
    target: Target)

  datatype Packet = Packet(inbound: string, outbound: string, source: Ip, dest: Ip, protocol: Protocol, port: int,
                           established: bool)

  predicate Matches(r: Rule, p: Packet) {
    && (match r.inbound
        case AnyInbound => true
        case On(name) => p.inbound == name
        case NotOnPrefix(prefix) => !(prefix <= p.inbound))
    && (r.outbound.Some? ==> p.outbound == r.outbound.value)
    && (match r.source
        case AnySource => true
        case From(ip) => p.source == ip
        case NotFrom(ip) => p.source != ip)
    && (r.protocol.Some? ==> p.protocol == r.protocol.value)
    && (r.dest.Some? ==> p.dest == r.dest.value)
    && (r.port.Some? ==> p.port == r.port.value)
    && (!r.tracking.NoTracking? ==> p.established)
  }

  /** The target of the first rule that matches; none means the chain's policy decides. */
  function Verdict(chain: seq<Rule>, p: Packet): Option<Target> {
    if chain == [] then None
    else if Matches(chain[0], p) then Some(chain[0].target)
    else Verdict(chain[1..], p)
  }

  lemma {:induction false} VerdictConcat(a: seq<Rule>, b: seq<Rule>, p: Packet)
    ensures Verdict(a + b, p) == if Verdict(a, p).Some? then Verdict(a, p) else Verdict(b, p)
  {
    if a == [] {
      assert a + b == b;
    } else {
      assert (a + b)[1..] == a[1..] + b;
      VerdictConcat(a[1..], b, p);
    }
  }

  // ---- Host state and commands ----

  datatype Link = Link(addresses: set<Ip>, up: bool, ipv6: bool)

  datatype Host = Host(input: seq<Rule>, forward: seq<Rule>, postrouting: seq<Rule>, taps: map<string, Link>,
                       forwarding: bool)

  datatype Command =
    | AddTap(tap: string) | DeleteTap(tap: string)
    | AddAddress(tap: string, address: Ip) | LinkUp(tap: string) | DisableIpv6(tap: string)
    | EnableForwarding
    | Append(table: Table, rule: Rule) | Delete(table: Table, rule: Rule)

  function Chain(h: Host, t: Table): seq<Rule> {
    match t case Input => h.input case Forward => h.forward case Nat => h.postrouting
  }

  function WithChain(h: Host, t: Table, chain: seq<Rule>): Host {
    match t case Input => h.(input := chain) case Forward => h.(forward := chain) case Nat => h.(postrouting := chain)
  }

  /** Deleting by value removes the first equal rule, if there is one. */
  function RemoveFirst(chain: seq<Rule>, r: Rule): seq<Rule> {
    if chain == [] then [] else if chain[0] == r then chain[1..] else [chain[0]] + RemoveFirst(chain[1..], r)
  }

  /** Commands that the kernel refuses have no effect. */
  predicate Possible(h: Host, c: Command) {
    match c
    case AddTap(tap) => tap !in h.taps
    case DeleteTap(tap) => tap in h.taps
    case AddAddress(tap, _) => tap in h.taps
    case LinkUp(tap) => tap in h.taps
    case DisableIpv6(tap) => tap in h.taps
    case EnableForwarding => true
    case Append(_, _) => true
    case Delete(t, r) => r in Chain(h, t)
  }

  function Exec(h: Host, c: Command): Host {
    if !Possible(h, c) then h
    else
      match c
      case AddTap(tap) => h.(taps := h.taps[tap := Link({}, false, true)])
      case DeleteTap(tap) => h.(taps := h.taps - {tap})
      case AddAddress(tap, ip) => h.(taps := h.taps[tap := h.taps[tap].(addresses := h.taps[tap].addresses + {ip})])
      case LinkUp(tap) => h.(taps := h.taps[tap := h.taps[tap].(up := true)])
      case DisableIpv6(tap) => h.(taps := h.taps[tap := h.taps[tap].(ipv6 := false)])
      case EnableForwarding => h.(forwarding := true)
      case Append(t, r) => WithChain(h, t, Chain(h, t) + [r])
      case Delete(t, r) => WithChain(h, t, RemoveFirst(Chain(h, t), r))
  }

  function ExecAll(h: Host, cs: seq<Command>): Host {
    if cs == [] then h else Exec(ExecAll(h, cs[..|cs| - 1]), cs[|cs| - 1])
  }

  lemma ExecAllSnoc(h: Host, cs: seq<Command>, c: Command)
    ensures ExecAll(h, cs + [c]) == Exec(ExecAll(h, cs), c)
  {
    assert (cs + [c])[..|cs|] == cs;
  }

  // ---- Whose rule is it ----

  /** Names of TAP devices start with "cr". */
  predicate IsTap(name: string) {
    "cr" <= name
  }

  /** The TAP a rule is about. */
  function RuleTap(r: Rule): Option<string> {
    if r.inbound.On? && IsTap(r.inbound.name) then Some(r.inbound.name)
    else if r.inbound.AnyInbound? then r.outbound
    else None
  }

  /** The rules of a chain that are about one TAP, in order. */
  function Own(chain: seq<Rule>, tap: string): seq<Rule> {
    if chain == [] then [] else (if RuleTap(chain[0]) == Some(tap) then [chain[0]] else []) + Own(chain[1..], tap)
  }

  lemma {:induction false} OwnConcat(a: seq<Rule>, b: seq<Rule>, tap: string)
    ensures Own(a + b, tap) == Own(a, tap) + Own(b, tap)
  {
    if a == [] {
      assert a + b == b;
    } else {
      var first := if RuleTap(a[0]) == Some(tap) then [a[0]] else [];
      calc {
        Own(a + b, tap);
        { assert (a + b)[0] == a[0] && (a + b)[1..] == a[1..] + b; }
        first + Own(a[1..] + b, tap);
        { OwnConcat(a[1..], b, tap); }
        first + (Own(a[1..], tap) + Own(b, tap));
        first + Own(a[1..], tap) + Own(b, tap);
        Own(a, tap) + Own(b, tap);
      }
    }
  }

  /** A TAP's own rules see deletions of their own and nothing else. */
  lemma {:induction false} OwnRemove(chain: seq<Rule>, r: Rule, tap: string)
    ensures Own(RemoveFirst(chain, r), tap) == if RuleTap(r) == Some(tap) then RemoveFirst(Own(chain, tap), r)
              else Own(chain, tap)
  {
    if chain != [] && chain[0] != r {
      OwnRemove(chain[1..], r, tap);
      var rest := RemoveFirst(chain[1..], r);
      assert ([chain[0]] + rest)[1..] == rest;
      if RuleTap(chain[0]) == Some(tap) {
        var own := Own(chain, tap);
        assert own[0] == chain[0] && own[1..] == Own(chain[1..], tap);
      } else {
        assert Own(chain, tap) == Own(chain[1..], tap);
      }
    } else if chain != [] && RuleTap(r) == Some(tap) {
      var own := Own(chain, tap);
      assert own[0] == r && own[1..] == Own(chain[1..], tap);
    }
  }

  /** Rules about other things never match a packet, so only the TAP's own rules decide. */
  lemma {:induction false} VerdictIsOwn(chain: seq<Rule>, tap: string, p: Packet)
    requires forall r :: r in chain && RuleTap(r) != Some(tap) ==> !Matches(r, p)
    ensures Verdict(chain, p) == Verdict(Own(chain, tap), p)
  {
    if chain != [] {
      assert chain[0] in chain;
      VerdictIsOwn(chain[1..], tap, p);
      if RuleTap(chain[0]) == Some(tap) {
        var own := Own(chain, tap);
        assert own[0] == chain[0] && own[1..] == Own(chain[1..], tap);
      } else {
        assert Own(chain, tap) == Own(chain[1..], tap);
      }
    }
  }

  // ---- Interleaving ----

  /** A command some sandbox, or the gateway set-up, carried out; `owner` is its TAP. */
  datatype Act = Act(owner: Option<string>, cmd: Command)

  function Commands(acts: seq<Act>): seq<Command> {
    seq(|acts|, i requires 0 <= i < |acts| => acts[i].cmd)
  }

  /** What one owner did, in order. */
  function Doings(acts: seq<Act>, owner: Option<string>): seq<Command> {
    if acts == [] then []
    else Doings(acts[..|acts| - 1], owner) + if acts[|acts| - 1].owner == owner then [acts[|acts| - 1].cmd] else []
  }

  /** Loopback to the gateway port, and everything else but TAPs away from it. */
  predicate GatewayRule(r: Rule) {
    || (r.inbound == On("lo") && r.outbound.None?)
    || (r.inbound == NotOnPrefix("cr") && r.outbound.None?)
  }

  /** Sandboxes only touch filter rules about their own TAP; the gateway only its own, in INPUT. NAT is not about
      verdicts. */
  predicate Disciplined(a: Act) {
    match a.cmd
    case Append(Nat, _) => true
    case Delete(Nat, _) => true
    case Append(t, r) => DisciplinedRule(a.owner, t, r)
    case Delete(t, r) => DisciplinedRule(a.owner, t, r)
    case _ => true
  }

  predicate DisciplinedRule(owner: Option<string>, t: Table, r: Rule) {
    if owner.Some? then IsTap(owner.value) && RuleTap(r) == owner else t.Input? && GatewayRule(r)
  }

  /** What appending and deleting does to one chain. */
  function OnChain(chain: seq<Rule>, c: Command, table: Table): seq<Rule> {
    if c.Append? && c.table == table then chain + [c.rule]
    else if c.Delete? && c.table == table then RemoveFirst(chain, c.rule)
    else chain
  }

  function ChainAfter(chain: seq<Rule>, cs: seq<Command>, table: Table): seq<Rule> {
    if cs == [] then chain else OnChain(ChainAfter(chain, cs[..|cs| - 1], table), cs[|cs| - 1], table)
  }

  lemma {:induction false} RemoveAbsent(chain: seq<Rule>, r: Rule)
    requires r !in chain
    ensures RemoveFirst(chain, r) == chain
  {
    if chain != [] {
      assert chain[0] in chain;
      RemoveAbsent(chain[1..], r);
    }
  }

  lemma {:induction false} RemoveKeeps(chain: seq<Rule>, r: Rule)
    ensures forall x :: x in RemoveFirst(chain, r) ==> x in chain
  {
    if chain != [] && chain[0] != r {
      RemoveKeeps(chain[1..], r);
    }
  }

  lemma ExecOnChain(h: Host, c: Command, table: Table)
    ensures Chain(Exec(h, c), table) == OnChain(Chain(h, table), c, table)
  {
    if c.Delete? && c.rule !in Chain(h, c.table) {
      RemoveAbsent(Chain(h, c.table), c.rule);
    }
  }

  lemma {:induction false} ExecAllOnChain(h: Host, cs: seq<Command>, table: Table)
    ensures Chain(ExecAll(h, cs), table) == ChainAfter(Chain(h, table), cs, table)
  {
    if cs != [] {
      ExecAllOnChain(h, cs[..|cs| - 1], table);
      ExecOnChain(ExecAll(h, cs[..|cs| - 1]), cs[|cs| - 1], table);
    }
  }

  lemma ActOnOwn(chain: seq<Rule>, a: Act, table: Table, tap: string)
    requires Disciplined(a) && !table.Nat? && IsTap(tap)
    ensures Own(OnChain(chain, a.cmd, table), tap) ==
            if a.owner == Some(tap) then OnChain(Own(chain, tap), a.cmd, table) else Own(chain, tap)
  {
    assert "lo"[0] != 'c';
    if a.cmd.Append? && a.cmd.table == table {
      OwnConcat(chain, [a.cmd.rule], tap);
    } else if a.cmd.Delete? && a.cmd.table == table {
      OwnRemove(chain, a.cmd.rule, tap);
    }
  }

  /** However the sandboxes and the gateway interleave, a TAP's own rules are what its own commands alone produce. */
  lemma {:induction false} Projection(chain: seq<Rule>, acts: seq<Act>, table: Table, tap: string)
    requires (forall i :: 0 <= i < |acts| ==> Disciplined(acts[i])) && !table.Nat? && IsTap(tap)
    ensures Own(ChainAfter(chain, Commands(acts), table), tap)
              == ChainAfter(Own(chain, tap), Doings(acts, Some(tap)), table)
  {
    if acts != [] {
      var init, a := acts[..|acts| - 1], acts[|acts| - 1];
      Projection(chain, init, table, tap);
      assert Commands(acts)[..|acts| - 1] == Commands(init);
      ActOnOwn(ChainAfter(chain, Commands(init), table), a, table, tap);
      var did := Doings(init, Some(tap));
      assert (did + [a.cmd])[..|did|] == did;
      assert did + [] == did;
    }
  }

  /** Whatever is in a filter chain was there at the start, is about some TAP, or is a gateway rule, in INPUT. */
  lemma {:induction false} ChainContents(chain: seq<Rule>, acts: seq<Act>, table: Table)
    requires (forall i :: 0 <= i < |acts| ==> Disciplined(acts[i])) && !table.Nat?
    ensures forall r :: r in ChainAfter(chain, Commands(acts), table) ==>
              r in chain || (table.Input? && GatewayRule(r)) || (RuleTap(r).Some? && IsTap(RuleTap(r).value))
  {
    if acts != [] {
      var init, a := acts[..|acts| - 1], acts[|acts| - 1];
      ChainContents(chain, init, table);
      assert Commands(acts)[..|acts| - 1] == Commands(init);
      if a.cmd.Delete? {
        RemoveKeeps(ChainAfter(chain, Commands(init), table), a.cmd.rule);
      }
    }
  }

  /** The packet enters on the TAP and does not leave on one, or the other way round on its way through the host. */
  predicate Crosses(table: Table, tap: string, p: Packet) {
    || (p.inbound == tap && !IsTap(p.outbound))
    || (table.Forward? && p.outbound == tap && !IsTap(p.inbound))
  }

  lemma OthersDoNotMatch(r: Rule, table: Table, tap: string, p: Packet)
    requires IsTap(tap) && Crosses(table, tap, p)
    requires (table.Input? && GatewayRule(r))
               || (RuleTap(r).Some? && IsTap(RuleTap(r).value) && RuleTap(r) != Some(tap))
    ensures !Matches(r, p)
  {
    assert tap[0] == 'c';
  }

  /** Independence: for any interleaving of any number of sandboxes over distinct TAPs and of the gateway set-up,
      started from chains without rules for this TAP or this packet, the verdict for a packet that enters on the TAP
      and does not leave on one, or is forwarded the other way, is decided by that TAP's own commands alone. */
  lemma {:induction false} Independence(h: Host, acts: seq<Act>, table: Table, tap: string, p: Packet)
    requires (forall i :: 0 <= i < |acts| ==> Disciplined(acts[i])) && !table.Nat? && IsTap(tap)
    requires Crosses(table, tap, p)
    requires forall r :: r in Chain(h, table) ==> !Matches(r, p)
    requires Own(Chain(h, table), tap) == []
    ensures Verdict(Chain(ExecAll(h, Commands(acts)), table), p)
              == Verdict(ChainAfter([], Doings(acts, Some(tap)), table), p)
  {
    var chain := ChainAfter(Chain(h, table), Commands(acts), table);
    ExecAllOnChain(h, Commands(acts), table);
    ChainContents(Chain(h, table), acts, table);
    forall r | r in chain && RuleTap(r) != Some(tap) ensures !Matches(r, p) {
      if r !in Chain(h, table) {
        OthersDoNotMatch(r, table, tap, p);
      }
    }
    VerdictIsOwn(chain, tap, p);
    Projection(Chain(h, table), acts, table, tap);
  }
}

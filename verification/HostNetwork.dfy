/** Setting up and tearing down the host side of one sandbox's network. */
module HostNetwork {
  import opened Seqs
  import opened Text
  import opened Firewall

  // ---- Names and rules ----

  predicate IsAlnum(c: char) {
    'a' <= c <= 'z' || 'A' <= c <= 'Z' || '0' <= c <= '9'
  }

  function Filtered(s: string): (r: string)
    ensures forall i :: 0 <= i < |r| ==> IsAlnum(r[i])
  {
    if s == "" then "" else (if IsAlnum(s[0]) then [s[0]] else []) + Filtered(s[1..])
  }

  /** A TAP name starts with "cr", fits in an interface name, and has no character that would make it a pattern. */
  function TapName(runId: string): (r: string)
    ensures IsTap(r) && 2 < |r| <= 15 && forall i :: 0 <= i < |r| ==> IsAlnum(r[i]) && Lower(r[i]) == r[i]
  {
    var filtered := TakeLast(ToLower(Filtered(runId)), 13);
    var name := if filtered == "" then "cleanroomtap" else filtered;
    "cr" + name
  }

  lemma {:induction false} FilteredKeeps(s: string)
    requires forall i :: 0 <= i < |s| ==> IsAlnum(s[i])
    ensures Filtered(s) == s
  {
    if s != "" {
      FilteredKeeps(s[1..]);
      assert s == [s[0]] + s[1..];
    }
  }

  /** Ids of small letters and digits keep their last thirteen characters. */
  lemma TapNameOf(id: string)
    requires id != "" && forall i :: 0 <= i < |id| ==> 'a' <= id[i] <= 'z' || '0' <= id[i] <= '9'
    ensures TapName(id) == "cr" + if |id| <= 13 then id else id[|id| - 13..]
  {
    FilteredKeeps(id);
    assert ToLower(id) == id;
  }

  datatype Allowed = Allowed(protocol: Protocol, dest: Ip, port: int)

  /** Everything a set-up needs once the run id is turned into names and the policy is resolved. */
  datatype Plan = Plan(tap: string, hostIp: Ip, guestIp: Ip, gatewayPort: int, allowed: seq<Allowed>)

  function Bare(target: Target): Rule {
    Rule(AnyInbound, None, AnySource, None, None, None, NoTracking, target)
  }

  function AntiSpoof(p: Plan): Rule {
    Bare(Discard).(inbound := On(p.tap), source := NotFrom(p.guestIp))
  }

  function GatewayAccept(p: Plan): Rule {
    Bare(Accept).(inbound := On(p.tap), source := From(p.guestIp), protocol := Some(Tcp), port := Some(p.gatewayPort))
  }

  function DenyRest(p: Plan): Rule {
    Bare(Discard).(inbound := On(p.tap))
  }

  function Masquerading(p: Plan): Rule {
    Bare(Masquerade).(source := From(p.guestIp))
  }

  function ReturnPath(p: Plan, tracking: Tracking): Rule {
    Bare(Accept).(outbound := Some(p.tap), tracking := tracking)
  }

  const DNS_SERVER := "1.1.1.1"

  function AllowRule(p: Plan, a: Allowed): Rule {
    Bare(Accept).(inbound := On(p.tap), protocol := Some(a.protocol), dest := Some(a.dest), port := Some(a.port))
  }

  function AllowRules(p: Plan, allowed: seq<Allowed>): seq<Rule> {
    seq(|allowed|, i requires 0 <= i < |allowed| => AllowRule(p, allowed[i]))
  }

  function InputRules(p: Plan): seq<Rule> {
    [AntiSpoof(p)] + (if p.gatewayPort > 0 then [GatewayAccept(p)] else []) + [DenyRest(p)]
  }

  function DnsAllowed(): seq<Allowed> {
    [Allowed(Udp, DNS_SERVER, 53), Allowed(Tcp, DNS_SERVER, 53)]
  }

  function ForwardRules(p: Plan, tracking: Tracking): seq<Rule> {
    [ReturnPath(p, tracking)] + AllowRules(p, DnsAllowed() + p.allowed) + [DenyRest(p)]
  }

  function Appends(table: Table, rules: seq<Rule>): seq<Command> {
    seq(|rules|, i requires 0 <= i < |rules| => Append(table, rules[i]))
  }

  /** The set-up commands before and after the one for the return path. */
  function Before(p: Plan): seq<Command> {
    [AddTap(p.tap), AddAddress(p.tap, p.hostIp), LinkUp(p.tap), EnableForwarding, DisableIpv6(p.tap)]
    + Appends(Input, InputRules(p)) + [Append(Nat, Masquerading(p))]
  }

  function After(p: Plan): seq<Command> {
    Appends(Forward, AllowRules(p, DnsAllowed() + p.allowed) + [DenyRest(p)])
  }

  /** The commands of a set-up, in order; `tracking` is the module the return-path rule ended up with. */
  function Installs(p: Plan, tracking: Tracking): seq<Command> {
    Before(p) + [Append(Forward, ReturnPath(p, tracking))] + After(p)
  }

  // ---- Cleanup ----

  /** The command a set-up remembers for undoing another one. */
  function Undo(c: Command): Option<Command> {
    match c
    case AddTap(tap) => Some(DeleteTap(tap))
    case Append(t, r) => Some(Delete(t, r))
    case _ => None
  }

  /** The remembered commands in the order the cleanup runs them: newest first. */
  function CleanupOf(cs: seq<Command>): seq<Command> {
    if cs == [] then []
    else (if Undo(cs[|cs| - 1]).Some? then [Undo(cs[|cs| - 1]).value] else []) + CleanupOf(cs[..|cs| - 1])
  }

  /** Run commands one after the other, ignoring failures; `ran` says which were carried out. */
  function Batch(h: Host, cs: seq<Command>, ran: seq<bool>): Host
    requires |ran| == |cs|
    decreases |cs|
  {
    if cs == [] then h else Batch(if ran[0] then Exec(h, cs[0]) else h, cs[1..], ran[1..])
  }

  /** The host is back to `h0`: chains up to order, TAPs exactly. IP forwarding is switched on for good. */
  ghost predicate Restored(h0: Host, h: Host) {
    h.taps == h0.taps && forall t :: multiset(Chain(h, t)) == multiset(Chain(h0, t))
  }

  /** Shape of a set-up that got as far as it did: it starts by making the TAP and then only adds to it and to
      chains. */
  predicate Additive(cs: seq<Command>, tap: string) {
    && (cs != [] ==> cs[0] == AddTap(tap))
    && forall i :: 1 <= i < |cs| ==> Addition(cs[i], tap)
  }

  predicate Addition(c: Command, tap: string) {
    match c
    case AddAddress(t, _) => t == tap
    case LinkUp(t) => t == tap
    case DisableIpv6(t) => t == tap
    case EnableForwarding => true
    case Append(_, _) => true
    case _ => false
  }

  function AddedTo(cs: seq<Command>, t: Table): multiset<Rule> {
    if cs == [] then multiset{}
    else
      var c := cs[|cs| - 1];
      AddedTo(cs[..|cs| - 1], t) + if c.Append? && c.table == t then multiset{c.rule} else multiset{}
  }

  /** The commands whose undoing was not carried out. */
  function Left(cs: seq<Command>, ran: seq<bool>): seq<Command>
    requires |ran| == |CleanupOf(cs)|
    decreases |cs|
  {
    if cs == [] then []
    else
      var init, c := cs[..|cs| - 1], cs[|cs| - 1];
      if Undo(c).None? then Left(init, ran) else Left(init, ran[1..]) + if ran[0] then [] else [c]
  }

  lemma {:induction false} RemoveFirstCounts(chain: seq<Rule>, r: Rule)
    requires r in chain
    ensures multiset(RemoveFirst(chain, r)) == multiset(chain) - multiset{r}
  {
    assert chain == [chain[0]] + chain[1..];
    if chain[0] != r {
      RemoveFirstCounts(chain[1..], r);
    }
  }

  // Chains, one at a time

  lemma OneAddition(chain: seq<Rule>, was: multiset<Rule>, added: multiset<Rule>, c: Command, t: Table)
    requires multiset(chain) == was + added && !c.Delete?
    ensures multiset(OnChain(chain, c, t))
              == was + (added + if c.Append? && c.table == t then multiset{c.rule} else multiset{})
  {
  }

  lemma {:induction false} AdditionsOnChain(chain: seq<Rule>, cs: seq<Command>, tap: string, t: Table)
    requires Additive(cs, tap)
    ensures multiset(ChainAfter(chain, cs, t)) == multiset(chain) + AddedTo(cs, t)
  {
    if cs != [] {
      var init, c := cs[..|cs| - 1], cs[|cs| - 1];
      AdditionsOnChain(chain, init, tap, t);
      assert c == AddTap(tap) || Addition(c, tap);
      OneAddition(ChainAfter(chain, init, t), multiset(chain), AddedTo(init, t), c, t);
    }
  }

  function BatchChain(chain: seq<Rule>, cs: seq<Command>, ran: seq<bool>, t: Table): seq<Rule>
    requires |ran| == |cs|
    decreases |cs|
  {
    if cs == [] then chain else BatchChain(if ran[0] then OnChain(chain, cs[0], t) else chain, cs[1..], ran[1..], t)
  }

  lemma {:induction false} BatchOnChain(h: Host, cs: seq<Command>, ran: seq<bool>, t: Table)
    requires |ran| == |cs|
    ensures Chain(Batch(h, cs, ran), t) == BatchChain(Chain(h, t), cs, ran, t)
    decreases |cs|
  {
    if cs != [] {
      ExecOnChain(h, cs[0], t);
      BatchOnChain(if ran[0] then Exec(h, cs[0]) else h, cs[1..], ran[1..], t);
    }
  }

  lemma AddedToSnoc(cs: seq<Command>, c: Command, t: Table)
    ensures AddedTo(cs + [c], t) == AddedTo(cs, t) + AddedTo([c], t)
  {
    assert (cs + [c])[..|cs|] == cs;
    assert [c][..0] == [];
  }

  lemma {:induction false} UndoOnChain(chain: seq<Rule>, init: seq<Command>, c: Command, t: Table)
    requires Undo(c).Some? && AddedTo(init + [c], t) <= multiset(chain)
    ensures AddedTo(init + [c], t) == AddedTo(init, t) + AddedTo([c], t)
    ensures var chain1 := OnChain(chain, Undo(c).value, t);
            multiset(chain1) == multiset(chain) - AddedTo([c], t) && AddedTo(init, t) <= multiset(chain1)
  {
    AddedToSnoc(init, c, t);
    AddedToOne(c, t);
    if c.Append? && c.table == t {
      assert c.rule in AddedTo(init + [c], t);
      RemoveFirstCounts(chain, c.rule);
    }
  }

  lemma AddedToOne(c: Command, t: Table)
    ensures AddedTo([c], t) == if c.Append? && c.table == t then multiset{c.rule} else multiset{}
  {
    assert [c][..0] == [];
  }

  lemma UndoCounts(chain: seq<Rule>, n: nat, x: Rule, cs: seq<Command>, ran: bool, t: Table)
    returns (chain1: seq<Rule>, n1: nat)
    requires cs != [] && Undo(cs[|cs| - 1]).Some? && AddedTo(cs, t) <= multiset(chain)
    requires multiset(chain)[x] == n + AddedTo(cs, t)[x]
    ensures chain1 == if ran then OnChain(chain, Undo(cs[|cs| - 1]).value, t) else chain
    ensures n1 == n + if ran then 0 else AddedTo([cs[|cs| - 1]], t)[x]
    ensures AddedTo(cs[..|cs| - 1], t) <= multiset(chain1) && multiset(chain1)[x] == n1 + AddedTo(cs[..|cs| - 1], t)[x]
  {
    var init, c := cs[..|cs| - 1], cs[|cs| - 1];
    assert cs == init + [c];
    UndoOnChain(chain, init, c, t);
    chain1 := if ran then OnChain(chain, Undo(c).value, t) else chain;
    n1 := n + if ran then 0 else AddedTo([c], t)[x];
  }

  lemma LeftStep(cs: seq<Command>, ran: seq<bool>, t: Table)
    requires cs != [] && |ran| == |CleanupOf(cs)| && Undo(cs[|cs| - 1]).Some?
    ensures |ran| == 1 + |CleanupOf(cs[..|cs| - 1])|
    ensures AddedTo(Left(cs, ran), t) ==
            AddedTo(Left(cs[..|cs| - 1], ran[1..]), t) + if ran[0] then multiset{} else AddedTo([cs[|cs| - 1]], t)
  {
    var rest := Left(cs[..|cs| - 1], ran[1..]);
    AddedToSnoc(rest, cs[|cs| - 1], t);
    assert rest + [] == rest;
  }

  lemma NoUndoStep(cs: seq<Command>, ran: seq<bool>, t: Table)
    requires cs != [] && |ran| == |CleanupOf(cs)| && Undo(cs[|cs| - 1]).None?
    ensures var init := cs[..|cs| - 1];
            CleanupOf(cs) == CleanupOf(init) && Left(cs, ran) == Left(init, ran) && AddedTo(cs, t) == AddedTo(init, t)
  {
  }

  lemma CleanupStep(chain: seq<Rule>, cs: seq<Command>, ran: seq<bool>, t: Table)
    requires cs != [] && |ran| == |CleanupOf(cs)| && Undo(cs[|cs| - 1]).Some?
    ensures |ran| == 1 + |CleanupOf(cs[..|cs| - 1])|
    ensures BatchChain(chain, CleanupOf(cs), ran, t) ==
            BatchChain(if ran[0] then OnChain(chain, Undo(cs[|cs| - 1]).value, t) else chain,
                       CleanupOf(cs[..|cs| - 1]), ran[1..], t)
  {
    assert CleanupOf(cs)[1..] == CleanupOf(cs[..|cs| - 1]);
  }

  /** A cleanup leaves in each chain exactly the rules it did not get to undo, and whatever else is there: said for the
      number of occurrences of one rule. */
  lemma {:induction false} CleanupLeavesOnChain(chain: seq<Rule>, n: nat, x: Rule, cs: seq<Command>, ran: seq<bool>,
                                                t: Table)
    requires |ran| == |CleanupOf(cs)| && multiset(chain)[x] == n + AddedTo(cs, t)[x]
    requires AddedTo(cs, t) <= multiset(chain)
    ensures multiset(BatchChain(chain, CleanupOf(cs), ran, t))[x] == n + AddedTo(Left(cs, ran), t)[x]
    decreases |cs|
  {
    if cs != [] {
      var init, c := cs[..|cs| - 1], cs[|cs| - 1];
      if Undo(c).None? {
        NoUndoStep(cs, ran, t);
        CleanupLeavesOnChain(chain, n, x, init, ran, t);
      } else {
        LeftStep(cs, ran, t);
        CleanupStep(chain, cs, ran, t);
        var chain1, n1 := UndoCounts(chain, n, x, cs, ran[0], t);
        CleanupLeavesOnChain(chain1, n1, x, init, ran[1..], t);
      }
    }
  }

  // TAPs

  lemma {:induction false} AdditionsOnTaps(h0: Host, cs: seq<Command>, tap: string)
    requires tap !in h0.taps && Additive(cs, tap)
    ensures var h := ExecAll(h0, cs); h.taps - {tap} == h0.taps && (cs != [] ==> tap in h.taps)
  {
    if cs != [] {
      var init, c := cs[..|cs| - 1], cs[|cs| - 1];
      AdditionsOnTaps(h0, init, tap);
      assert c == AddTap(tap) || Addition(c, tap);
    }
  }

  lemma LastUndo(h: Host, tap: string, cs: seq<Command>, ran: seq<bool>)
    requires cs == [AddTap(tap)] && |ran| == |CleanupOf(cs)| && tap in h.taps
    ensures Left(cs, ran) == if ran[0] then [] else cs
    ensures Batch(h, CleanupOf(cs), ran) == if ran[0] then h.(taps := h.taps - {tap}) else h
  {
    assert CleanupOf(cs) == [DeleteTap(tap)];
    assert Left([], ran[1..]) == [];
  }

  /** Undoing an appended rule is no matter of TAPs. */
  lemma TapStep(h: Host, cs: seq<Command>, tap: string, ran: seq<bool>)
    requires |cs| > 1 && cs[|cs| - 1].Append? && |ran| == |CleanupOf(cs)|
    ensures var init, c := cs[..|cs| - 1], cs[|cs| - 1];
            var h1 := if ran[0] then Exec(h, Undo(c).value) else h;
            && |ran| == 1 + |CleanupOf(init)| && h1.taps == h.taps
            && Batch(h, CleanupOf(cs), ran) == Batch(h1, CleanupOf(init), ran[1..])
            && (AddTap(tap) in Left(cs, ran) <==> AddTap(tap) in Left(init, ran[1..]))
  {
    assert CleanupOf(cs)[1..] == CleanupOf(cs[..|cs| - 1]);
  }

  lemma {:induction false} CleanupLeavesTaps(h: Host, cs: seq<Command>, tap: string, ran: seq<bool>)
    requires cs != [] && Additive(cs, tap) && |ran| == |CleanupOf(cs)| && tap in h.taps
    ensures Batch(h, CleanupOf(cs), ran).taps == if AddTap(tap) in Left(cs, ran) then h.taps else h.taps - {tap}
    decreases |cs|
  {
    var init, c := cs[..|cs| - 1], cs[|cs| - 1];
    if |cs| == 1 {
      LastUndo(h, tap, cs, ran);
    } else {
      assert Addition(c, tap);
      if Undo(c).None? {
        assert CleanupOf(cs) == CleanupOf(init);
        CleanupLeavesTaps(h, init, tap, ran);
      } else {
        TapStep(h, cs, tap, ran);
        CleanupLeavesTaps(if ran[0] then Exec(h, Undo(c).value) else h, init, tap, ran[1..]);
      }
    }
  }

  lemma {:induction false} NothingLeft(cs: seq<Command>, ran: seq<bool>)
    requires |ran| == |CleanupOf(cs)|
    ensures Left(cs, ran) == [] <==> forall i :: 0 <= i < |ran| ==> ran[i]
    decreases |cs|
  {
    if cs != [] {
      var init, c := cs[..|cs| - 1], cs[|cs| - 1];
      if Undo(c).None? {
        NothingLeft(init, ran);
      } else {
        NothingLeft(init, ran[1..]);
        assert ran == [ran[0]] + ran[1..];
      }
    }
  }

  lemma {:induction false} LeftShape(cs: seq<Command>, tap: string, ran: seq<bool>)
    requires |ran| == |CleanupOf(cs)| && Additive(cs, tap)
    ensures forall c :: c in Left(cs, ran) ==> c.Append? || c == AddTap(tap)
    decreases |cs|
  {
    if cs != [] {
      LeftShape(cs[..|cs| - 1], tap, if Undo(cs[|cs| - 1]).None? then ran else ran[1..]);
    }
  }

  lemma {:induction false} AddedToHas(cs: seq<Command>, c: Command)
    requires c in cs && c.Append?
    ensures c.rule in AddedTo(cs, c.table)
  {
    if c != cs[|cs| - 1] {
      AddedToHas(cs[..|cs| - 1], c);
    }
  }

  /** All or nothing: after any additive start of a set-up, running its cleanup restores the host exactly when every
      remembered command is carried out. */
  lemma {:induction false} CleanupRestoresIff(h0: Host, cs: seq<Command>, tap: string, ran: seq<bool>)
    requires tap !in h0.taps && Additive(cs, tap) && |ran| == |CleanupOf(cs)|
    ensures Restored(h0, Batch(ExecAll(h0, cs), CleanupOf(cs), ran)) <==> forall i :: 0 <= i < |ran| ==> ran[i]
  {
    if cs != [] {
      NothingLeft(cs, ran);
      CleanupResult(h0, cs, tap, ran);
      var left := Left(cs, ran);
      if left != [] {
        LeftShape(cs, tap, ran);
        LeftoverShows(h0, Batch(ExecAll(h0, cs), CleanupOf(cs), ran), left, tap);
      }
    }
  }

  lemma CleanupResult(h0: Host, cs: seq<Command>, tap: string, ran: seq<bool>)
    requires cs != [] && tap !in h0.taps && Additive(cs, tap) && |ran| == |CleanupOf(cs)|
    ensures var h' := Batch(ExecAll(h0, cs), CleanupOf(cs), ran);
            && (forall t :: multiset(Chain(h', t)) == multiset(Chain(h0, t)) + AddedTo(Left(cs, ran), t))
            && (if AddTap(tap) in Left(cs, ran) then tap in h'.taps else h'.taps == h0.taps)
  {
    var h := ExecAll(h0, cs);
    forall t ensures multiset(Chain(Batch(h, CleanupOf(cs), ran), t))
        == multiset(Chain(h0, t)) + AddedTo(Left(cs, ran), t) {
      LeftOnChain(h0, cs, tap, ran, t);
    }
    AdditionsOnTaps(h0, cs, tap);
    CleanupLeavesTaps(h, cs, tap, ran);
  }

  lemma LeftOnChain(h0: Host, cs: seq<Command>, tap: string, ran: seq<bool>, t: Table)
    requires Additive(cs, tap) && |ran| == |CleanupOf(cs)|
    ensures multiset(Chain(Batch(ExecAll(h0, cs), CleanupOf(cs), ran), t))
              == multiset(Chain(h0, t)) + AddedTo(Left(cs, ran), t)
  {
    ExecAllOnChain(h0, cs, t);
    AdditionsOnChain(Chain(h0, t), cs, tap, t);
    BatchOnChain(ExecAll(h0, cs), CleanupOf(cs), ran, t);
    var h := ExecAll(h0, cs);
    forall x ensures multiset(Chain(Batch(h, CleanupOf(cs), ran), t))[x]
        == (multiset(Chain(h0, t)) + AddedTo(Left(cs, ran), t))[x] {
      CleanupLeavesOnChain(Chain(h, t), multiset(Chain(h0, t))[x], x, cs, ran, t);
    }
  }

  lemma LeftoverShows(h0: Host, h': Host, left: seq<Command>, tap: string)
    requires left != [] && (left[0].Append? || left[0] == AddTap(tap)) && tap !in h0.taps
    requires AddTap(tap) in left ==> tap in h'.taps
    requires forall t :: multiset(Chain(h', t)) == multiset(Chain(h0, t)) + AddedTo(left, t)
    ensures !Restored(h0, h')
  {
    var c := left[0];
    assert c in left;
    if c.Append? {
      AddedToHas(left, c);
      assert multiset(Chain(h', c.table)) == multiset(Chain(h0, c.table)) + AddedTo(left, c.table);
      assert |multiset(Chain(h', c.table))| > |multiset(Chain(h0, c.table))|;
    }
  }
}

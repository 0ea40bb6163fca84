/** Network policies: compiling a raw policy to its canonical form, asking it, and sending it as a message. */
module Policy {
  import opened Seqs
  import opened Text

  datatype Rule = Rule(host: string, ports: seq<int>)

  datatype RawPolicy = RawPolicy(version: int, imageRef: string, docker: bool, networkDefault: string, allow: seq<Rule>)

  datatype Compiled = Compiled(
    version: int,
    imageRef: string,
    imageDigest: string,
    docker: bool,
    networkDefault: string,
    allow: seq<Rule>,
    hash: string)

  /** The protobuf message: the same fields, with integers of 32 bits. */
  type Proto = Compiled

  datatype Problem = MissingPolicy | MissingVersion | UnsupportedVersion | MissingImage | InvalidImage | DigestMismatch
                   | UnsupportedDefault | EmptyHost | NoPorts(host: string) | InvalidPort(host: string, port: int)
                   | HashMismatch

  /** hashPolicy after its `Hash` field is cleared. */
  type Hasher = Compiled -> string

  // ---- Image references ----

  datatype DigestReference = DigestReference(original: string, repository: string, hex: string) {
    function Digest(): string {
      "sha256:" + hex
    }
  }

  predicate IsHex64(s: string) {
    |s| == 64 && forall i :: 0 <= i < |s| ==> '0' <= s[i] <= '9' || 'a' <= s[i] <= 'f'
  }

  /** How a digest reference reads: a repository, the first at-sign, and a sha256 digest, with space around each. */
  predicate Reads(raw: string, repo: string, digest: string, hex: string) {
    && TrimSpace(raw) == repo + "@" + digest && '@' !in repo
    && TrimSpace(repo) != "" && (forall c :: c in TrimSpace(repo) ==> c !in " \t\n\r")
    && ToLower(TrimSpace(digest)) == "sha256:" + hex && IsHex64(hex)
  }

  function ParseDigestReference(raw: string): (r: Option<DigestReference>)
    ensures r.Some? ==>
              && r.value.original == TrimSpace(raw)
              && exists repo, digest :: Reads(raw, repo, digest, r.value.hex) && r.value.repository == TrimSpace(repo)
  {
    var ref := TrimSpace(raw);
    match Cut(ref, '@')
    case None => None
    case Some((repoPart, digestPart)) =>
      var repo := TrimSpace(repoPart);
      if repo == "" || ' ' in repo || '\t' in repo || '\n' in repo || '\r' in repo then None
      else match Cut(ToLower(TrimSpace(digestPart)), ':')
        case Some((algo, hex)) =>
          if algo == "sha256" && IsHex64(hex) then
            assert Reads(raw, repoPart, digestPart, hex);
            Some(DigestReference(ref, repo, hex))
          else None
        case None => None
  }

  /** A reference is accepted exactly when it reads as one, and then the repository and the digest are the ones written
      in it. */
  lemma ReferenceMeaning(raw: string)
    ensures ParseDigestReference(raw).Some? <==> exists repo, digest, hex :: Reads(raw, repo, digest, hex)
    ensures forall repo, digest, hex :: Reads(raw, repo, digest, hex) ==>
              ParseDigestReference(raw) == Some(DigestReference(TrimSpace(raw), TrimSpace(repo), hex))
  {
    forall repo, digest, hex | Reads(raw, repo, digest, hex)
      ensures ParseDigestReference(raw) == Some(DigestReference(TrimSpace(raw), TrimSpace(repo), hex))
    {
      ReferenceRead(raw, repo, digest, hex);
    }
  }

  lemma ReferenceRead(raw: string, repo: string, digest: string, hex: string)
    requires Reads(raw, repo, digest, hex)
    ensures ParseDigestReference(raw) == Some(DigestReference(TrimSpace(raw), TrimSpace(repo), hex))
  {
    assert repo + "@" + digest == repo + ['@'] + digest;
    CutAt(repo, '@', digest);
    assert "sha256:" + hex == "sha256" + [':'] + hex;
    CutAt("sha256", ':', hex);
    assert ' ' in " \t\n\r" && '\t' in " \t\n\r" && '\n' in " \t\n\r" && '\r' in " \t\n\r";
  }

  /** A parsed reference parses again to itself, and its digest survives trimming. */
  lemma ReferenceIsStable(raw: string)
    requires ParseDigestReference(raw).Some?
    ensures var ref := ParseDigestReference(raw).value;
            ParseDigestReference(ref.original) == Some(ref) && TrimSpace(ref.original) == ref.original != ""
            && TrimSpace(ref.Digest()) == ref.Digest()
  {
    var ref := ParseDigestReference(raw).value;
    TrimSpaceTrims(raw);
    TrimmedIsFixed(ref.original);
    TrimmedIsFixed(ref.Digest());
  }

  // ---- Canonical rules ----

  predicate ValidPort(p: int) {
    1 <= p <= 65535
  }

  /** The ports from `lo` on, ascending and once each. */
  function Ascending(ports: set<int>, lo: int): seq<int>
    decreases 65536 - lo
  {
    if lo > 65535 then [] else (if lo in ports then [lo] else []) + Ascending(ports, lo + 1)
  }

  function Canonical(r: Rule): Rule {
    Rule(Normal(r.host), Ascending(set p | p in r.ports, 1))
  }

  function CanonicalRules(rules: seq<Rule>): seq<Rule> {
    seq(|rules|, i requires 0 <= i < |rules| => Canonical(rules[i]))
  }

  predicate IntLess(a: int, b: int) {
    a < b
  }

  predicate HostLess(a: Rule, b: Rule) {
    StringLess(a.host, b.host)
  }

  lemma {:induction false} AscendingPorts(ports: set<int>, lo: int)
    requires lo >= 1
    ensures StrictlySorted(Ascending(ports, lo), IntLess)
    ensures forall p :: p in Ascending(ports, lo) <==> p in ports && lo <= p <= 65535
    decreases 65536 - lo
  {
    if lo <= 65535 {
      AscendingPorts(ports, lo + 1);
      var rest := Ascending(ports, lo + 1);
      forall i, j | 0 <= i < j < |[lo] + rest| ensures IntLess(([lo] + rest)[i], ([lo] + rest)[j]) {
        assert rest[j - 1] in rest;
      }
    }
  }

  /** Ports that ascend strictly and lie in range are canonical already. */
  lemma AscendingIsFixed(ports: seq<int>)
    requires StrictlySorted(ports, IntLess) && forall p :: p in ports ==> ValidPort(p)
    ensures Ascending(set p | p in ports, 1) == ports
  {
    AscendingPorts(set p | p in ports, 1);
    StrictlySortedUnique(Ascending(set p | p in ports, 1), ports, IntLess);
  }

  function FirstInvalid(host: string, ports: seq<int>): Option<Problem> {
    if ports == [] then None
    else if !ValidPort(ports[0]) then Some(InvalidPort(host, ports[0]))
    else FirstInvalid(host, ports[1..])
  }

  function RuleProblem(r: Rule): Option<Problem> {
    if Normal(r.host) == "" then Some(EmptyHost)
    else if r.ports == [] then Some(NoPorts(Normal(r.host)))
    else FirstInvalid(Normal(r.host), r.ports)
  }

  function FirstProblem(rules: seq<Rule>): Option<Problem> {
    if rules == [] then None
    else if RuleProblem(rules[0]).Some? then RuleProblem(rules[0])
    else FirstProblem(rules[1..])
  }

  lemma {:induction false} FirstInvalidSplit(host: string, ports: seq<int>, i: nat)
    requires i <= |ports| && forall j :: 0 <= j < i ==> ValidPort(ports[j])
    ensures FirstInvalid(host, ports) == FirstInvalid(host, ports[i..])
  {
    if i > 0 {
      FirstInvalidSplit(host, ports[1..], i - 1);
      assert ports[1..][i - 1..] == ports[i..];
    } else {
      assert ports[0..] == ports;
    }
  }

  lemma {:induction false} FirstProblemSplit(rules: seq<Rule>, i: nat)
    requires i <= |rules| && forall j :: 0 <= j < i ==> RuleProblem(rules[j]).None?
    ensures FirstProblem(rules) == FirstProblem(rules[i..])
  {
    if i > 0 {
      FirstProblemSplit(rules[1..], i - 1);
      assert rules[1..][i - 1..] == rules[i..];
    } else {
      assert rules[0..] == rules;
    }
  }

  lemma {:induction false} NoInvalid(host: string, ports: seq<int>)
    ensures FirstInvalid(host, ports).None? <==> forall p :: p in ports ==> ValidPort(p)
  {
    if ports != [] {
      assert ports[0] in ports;
      NoInvalid(host, ports[1..]);
      assert ports == [ports[0]] + ports[1..];
    }
  }

  lemma {:induction false} NoProblem(rules: seq<Rule>, i: nat)
    requires FirstProblem(rules).None? && i < |rules|
    ensures RuleProblem(rules[i]).None?
  {
    if i > 0 {
      NoProblem(rules[1..], i - 1);
    }
  }

  // ---- The loops ----

  lemma IntOrder()
    ensures WeakOrder(IntLess)
  {
  }

  lemma HostOrder()
    ensures WeakOrder(HostLess)
  {
    forall a, b | HostLess(a, b) ensures !HostLess(b, a) {
      StringLessTrichotomy(a.host, b.host);
    }
    forall a, b, c | !HostLess(b, a) && !HostLess(c, b) ensures !HostLess(c, a) {
      StringLessTrichotomy(a.host, b.host);
      StringLessTrichotomy(b.host, c.host);
      StringLessTrichotomy(a.host, c.host);
      if a.host != b.host && b.host != c.host {
        StringLessTransitive(a.host, b.host, c.host);
      }
    }
  }

  lemma SortedDistinct(kept: seq<int>, sorted: seq<int>)
    requires SortedBy(sorted, IntLess) && multiset(sorted) == multiset(kept)
    requires forall i, j :: 0 <= i < j < |kept| ==> kept[i] != kept[j]
    ensures StrictlySorted(sorted, IntLess)
  {
    forall i, j | 0 <= i < j < |sorted| ensures IntLess(sorted[i], sorted[j]) {
      if sorted[i] == sorted[j] {
        TwiceInPermutation(kept, sorted, i, j);
        assert false;
      }
    }
  }

  lemma SortedDistinctPorts(kept: seq<int>, sorted: seq<int>, ports: seq<int>)
    requires SortedBy(sorted, IntLess) && multiset(sorted) == multiset(kept)
    requires forall i, j :: 0 <= i < j < |kept| ==> kept[i] != kept[j]
    requires forall p :: p in kept <==> p in ports
    requires forall p :: p in ports ==> ValidPort(p)
    ensures sorted == Ascending(set p | p in ports, 1)
  {
    AscendingPorts(set p | p in ports, 1);
    SortedIsCanonical(kept, sorted, Ascending(set p | p in ports, 1));
  }

  lemma SortedIsCanonical(kept: seq<int>, sorted: seq<int>, canonical: seq<int>)
    requires SortedBy(sorted, IntLess) && multiset(sorted) == multiset(kept)
    requires forall i, j :: 0 <= i < j < |kept| ==> kept[i] != kept[j]
    requires StrictlySorted(canonical, IntLess) && forall p :: p in kept <==> p in canonical
    ensures sorted == canonical
  {
    SortedDistinct(kept, sorted);
    SameMembers(kept, sorted);
    StrictlySortedUnique(sorted, canonical, IntLess);
  }

  /** Drop repeated ports, keep the first occurrences, and sort. */
  method CompilePorts(host: string, ports: seq<int>) returns (r: Result<seq<int>, Problem>)
    ensures match FirstInvalid(host, ports)
            case Some(problem) => r == Err(problem)
            case None => r == Ok(Ascending(set p | p in ports, 1))
  {
    var kept, seen := [], {};
    for i := 0 to |ports|
      invariant forall j :: 0 <= j < i ==> ValidPort(ports[j]) && ports[j] in seen
      invariant forall p :: p in seen <==> p in kept
      invariant forall p :: p in kept ==> p in ports
      invariant forall a, b :: 0 <= a < b < |kept| ==> kept[a] != kept[b]
    {
      if ports[i] < 1 || ports[i] > 65535 {
        FirstInvalidSplit(host, ports, i);
        return Err(InvalidPort(host, ports[i]));
      }
      if ports[i] !in seen {
        seen := seen + {ports[i]};
        kept := kept + [ports[i]];
      }
    }
    NoInvalid(host, ports);
    IntOrder();
    var sorted := Sort(kept, IntLess);
    SortedDistinctPorts(kept, sorted, ports);
    r := Ok(sorted);
  }

  method CompileRule(rule: Rule) returns (r: Result<Rule, Problem>)
    ensures match RuleProblem(rule)
            case Some(problem) => r == Err(problem)
            case None => r == Ok(Canonical(rule))
  {
    var host := Normal(rule.host);
    if host == "" {
      return Err(EmptyHost);
    }
    if rule.ports == [] {
      return Err(NoPorts(host));
    }
    var ports := CompilePorts(host, rule.ports);
    r := if ports.Err? then Err(ports.error) else Ok(Rule(host, ports.value));
  }

  method CanonicalizeRules(rules: seq<Rule>) returns (r: Result<seq<Rule>, Problem>)
    ensures match FirstProblem(rules)
            case Some(problem) => r == Err(problem)
            case None => r.Ok? && r.value == CanonicalRules(rules)
  {
    var allow := [];
    for i := 0 to |rules|
      invariant forall j :: 0 <= j < i ==> RuleProblem(rules[j]).None?
      invariant |allow| == i && forall j :: 0 <= j < i ==> allow[j] == Canonical(rules[j])
    {
      var rule := CompileRule(rules[i]);
      if rule.Err? {
        FirstProblemAt(rules, i);
        return Err(rule.error);
      }
      allow := allow + [rule.value];
    }
    FirstProblemSplit(rules, |rules|);
    r := Ok(allow);
  }

  lemma FirstProblemAt(rules: seq<Rule>, i: nat)
    requires i < |rules| && (forall j :: 0 <= j < i ==> RuleProblem(rules[j]).None?) && RuleProblem(rules[i]).Some?
    ensures FirstProblem(rules) == RuleProblem(rules[i])
  {
    FirstProblemSplit(rules, i);
  }

  /** The rule loop of Compile and FromProto. Nothing is said about the order of rules with equal hosts. */
  method CompileRules(rules: seq<Rule>) returns (r: Result<seq<Rule>, Problem>)
    ensures match FirstProblem(rules)
            case Some(problem) => r == Err(problem)
            case None => r.Ok? && SortedBy(r.value, HostLess) && multiset(r.value) == multiset(CanonicalRules(rules))
  {
    r := CanonicalizeRules(rules);
    if r.Ok? {
      HostOrder();
      var sorted := Sort(r.value, HostLess);
      r := Ok(sorted);
    }
  }

  // ---- Compile ----

  predicate DenyDefault(networkDefault: string) {
    Normal(networkDefault) == "" || Normal(networkDefault) == "deny"
  }

  function ImageProblem(version: int, imageRef: string): Option<Problem> {
    if version == 0 then Some(MissingVersion)
    else if version != 1 then Some(UnsupportedVersion)
    else if TrimSpace(imageRef) == "" then Some(MissingImage)
    else if ParseDigestReference(imageRef).None? then Some(InvalidImage)
    else None
  }

  function RulesProblem(networkDefault: string, rules: seq<Rule>): Option<Problem> {
    if !DenyDefault(networkDefault) then Some(UnsupportedDefault) else FirstProblem(rules)
  }

  function RawProblem(raw: RawPolicy): Option<Problem> {
    var p := ImageProblem(raw.version, raw.imageRef);
    if p.Some? then p else RulesProblem(raw.networkDefault, raw.allow)
  }

  /** `c` is a compiled form of the raw policy. With distinct hosts it is the only one. */
  ghost predicate CompiledFrom(c: Compiled, raw: RawPolicy, hasher: Hasher) {
    && RawProblem(raw).None?
    && var ref := ParseDigestReference(raw.imageRef).value;
    && c == Compiled(1, ref.original, ref.Digest(), raw.docker, "deny", c.allow, hasher(c.(hash := "")))
    && SortedBy(c.allow, HostLess) && multiset(c.allow) == multiset(CanonicalRules(raw.allow))
  }

  method Assemble(raw: RawPolicy, allow: seq<Rule>, hasher: Hasher) returns (c: Compiled)
    requires RawProblem(raw).None?
    requires SortedBy(allow, HostLess) && multiset(allow) == multiset(CanonicalRules(raw.allow))
    ensures CompiledFrom(c, raw, hasher) && c.allow == allow
  {
    var ref := ParseDigestReference(raw.imageRef).value;
    c := Compiled(1, ref.original, ref.Digest(), raw.docker, "deny", allow, "");
    c := c.(hash := hasher(c));
  }

  method CheckImage(version: int, imageRef: string) returns (r: Result<DigestReference, Problem>)
    ensures match ImageProblem(version, imageRef)
            case Some(problem) => r == Err(problem)
            case None => r.Ok? && ParseDigestReference(imageRef) == Some(r.value)
  {
    if version == 0 {
      return Err(MissingVersion);
    }
    if version != 1 {
      return Err(UnsupportedVersion);
    }
    var trimmed := TrimSpace(imageRef);
    if trimmed == "" {
      return Err(MissingImage);
    }
    var parsed := ParseDigestReference(trimmed);
    TrimSpaceTrims(imageRef);
    TrimmedIsFixed(trimmed);
    r := if parsed.None? then Err(InvalidImage) else Ok(parsed.value);
  }

  method Compile(raw: RawPolicy, hasher: Hasher) returns (r: Result<Compiled, Problem>)
    ensures match RawProblem(raw)
            case Some(problem) => r == Err(problem)
            case None =>
              && r.Ok? && CompiledFrom(r.value, raw, hasher)
              && forall repo, digest, hex :: Reads(raw.imageRef, repo, digest, hex) ==>
                   r.value.imageDigest == "sha256:" + hex
  {
    var image := CheckImage(raw.version, raw.imageRef);
    if image.Err? {
      return Err(image.error);
    }
    if !DenyDefault(raw.networkDefault) {
      return Err(UnsupportedDefault);
    }
    var allow := CompileRules(raw.allow);
    if allow.Err? {
      return Err(allow.error);
    }
    var c := Assemble(raw, allow.value, hasher);
    CompiledDigest(c, raw, hasher);
    r := Ok(c);
  }

  /** What Compile accepts: version 1, an image pinned by digest, no other network default than deny, and rules that
      each name a host and at least one port, all of them ports. */
  lemma AcceptedExactly(raw: RawPolicy)
    ensures RawProblem(raw).None? <==>
              && raw.version == 1 && (exists repo, digest, hex :: Reads(raw.imageRef, repo, digest, hex))
              && TrimSpace(ToLower(raw.networkDefault)) in ["", "deny"]
              && forall i :: 0 <= i < |raw.allow| ==> RuleAccepted(raw.allow[i])
  {
    ReferenceMeaning(raw.imageRef);
    if ParseDigestReference(raw.imageRef).Some? {
      ReferenceNotBlank(raw.imageRef);
    }
    forall i | 0 <= i < |raw.allow| ensures RuleProblem(raw.allow[i]).None? <==> RuleAccepted(raw.allow[i]) {
      NoInvalid(Normal(raw.allow[i].host), raw.allow[i].ports);
    }
    if FirstProblem(raw.allow).None? {
      forall i | 0 <= i < |raw.allow| ensures RuleProblem(raw.allow[i]).None? {
        NoProblem(raw.allow, i);
      }
    } else if forall i :: 0 <= i < |raw.allow| ==> RuleAccepted(raw.allow[i]) {
      FirstProblemSplit(raw.allow, |raw.allow|);
      assert false;
    }
  }

  predicate RuleAccepted(r: Rule) {
    TrimSpace(ToLower(r.host)) != "" && r.ports != [] && forall p :: p in r.ports ==> 1 <= p <= 65535
  }

  lemma ReferenceNotBlank(raw: string)
    requires ParseDigestReference(raw).Some?
    ensures TrimSpace(raw) != ""
  {
  }

  /** The digest of a compiled policy is the one written in the raw reference, in lower case. */
  lemma CompiledDigest(c: Compiled, raw: RawPolicy, hasher: Hasher)
    requires CompiledFrom(c, raw, hasher)
    ensures exists repo, digest, hex ::
              && Reads(raw.imageRef, repo, digest, hex)
              && c.imageDigest == ToLower(TrimSpace(digest)) == "sha256:" + hex
    ensures forall repo, digest, hex :: Reads(raw.imageRef, repo, digest, hex) ==> c.imageDigest == "sha256:" + hex
    ensures c.imageRef == TrimSpace(raw.imageRef)
  {
    ReferenceMeaning(raw.imageRef);
  }

  // ---- Allows ----

  ghost predicate Permits(rules: seq<Rule>, host: string, port: int) {
    exists i :: 0 <= i < |rules| && Normal(rules[i].host) == Normal(host) && port in rules[i].ports
  }

  /** What a policy value answers: hosts are compared as stored with the normalized question. */
  ghost predicate Allowed(p: Compiled, host: string, port: int) {
    exists i :: 0 <= i < |p.allow| && p.allow[i].host == Normal(host) && port in p.allow[i].ports
  }

  method Allows(p: Compiled, host: string, port: int) returns (r: bool)
    ensures r <==> Allowed(p, host, port)
  {
    var wanted := Normal(host);
    for i := 0 to |p.allow|
      invariant forall j :: 0 <= j < i ==> p.allow[j].host != wanted || port !in p.allow[j].ports
    {
      if p.allow[i].host == wanted {
        for j := 0 to |p.allow[i].ports|
          invariant port !in p.allow[i].ports[..j]
        {
          if p.allow[i].ports[j] == port {
            return true;
          }
        }
        assert p.allow[i].ports[..|p.allow[i].ports|] == p.allow[i].ports;
      }
    }
    r := false;
  }

  lemma CanonicalRule(r: Rule)
    requires RuleProblem(r).None?
    ensures var c := Canonical(r);
            && Normal(c.host) == c.host == Normal(r.host) != ""
            && StrictlySorted(c.ports, IntLess) && c.ports != []
            && (forall p :: p in c.ports <==> p in r.ports) && forall p :: p in r.ports ==> ValidPort(p)
  {
    NormalIdempotent(r.host);
    NoInvalid(Normal(r.host), r.ports);
    AscendingPorts(set p | p in r.ports, 1);
    assert r.ports[0] in Canonical(r).ports;
  }

  /** Every compiled rule is the canonical form of some raw rule, and every raw rule has its canonical form there. */
  lemma CompiledRules(c: Compiled, raw: RawPolicy, hasher: Hasher)
    requires CompiledFrom(c, raw, hasher)
    ensures forall i :: 0 <= i < |c.allow| ==> exists j :: 0 <= j < |raw.allow| && c.allow[i] == Canonical(raw.allow[j])
    ensures forall j :: 0 <= j < |raw.allow| ==> RuleProblem(raw.allow[j]).None? && Canonical(raw.allow[j]) in c.allow
  {
    var rules := CanonicalRules(raw.allow);
    forall i | 0 <= i < |c.allow| ensures exists j :: 0 <= j < |raw.allow| && c.allow[i] == Canonical(raw.allow[j]) {
      assert c.allow[i] in multiset(rules);
      var j :| 0 <= j < |rules| && rules[j] == c.allow[i];
      assert c.allow[i] == Canonical(raw.allow[j]);
    }
    forall j | 0 <= j < |raw.allow| ensures RuleProblem(raw.allow[j]).None? && Canonical(raw.allow[j]) in c.allow {
      NoProblem(raw.allow, j);
      assert rules[j] == Canonical(raw.allow[j]);
      assert rules[j] in multiset(c.allow);
    }
  }

  lemma CompiledRuleShape(c: Compiled, raw: RawPolicy, hasher: Hasher, i: nat)
    requires CompiledFrom(c, raw, hasher) && i < |c.allow|
    ensures Normal(c.allow[i].host) == c.allow[i].host != "" && c.allow[i].ports != []
    ensures StrictlySorted(c.allow[i].ports, IntLess) && forall p :: p in c.allow[i].ports ==> ValidPort(p)
  {
    CompiledRules(c, raw, hasher);
    var j :| 0 <= j < |raw.allow| && c.allow[i] == Canonical(raw.allow[j]);
    CanonicalRule(raw.allow[j]);
  }

  /** For a compiled policy the answer is the meaning of its rules. */
  lemma AllowedIsPermitted(c: Compiled, raw: RawPolicy, hasher: Hasher, host: string, port: int)
    requires CompiledFrom(c, raw, hasher)
    ensures Allowed(c, host, port) <==> Permits(c.allow, host, port)
  {
    forall i | 0 <= i < |c.allow| ensures Normal(c.allow[i].host) == c.allow[i].host {
      CompiledRuleShape(c, raw, hasher, i);
    }
  }

  /** Compiling keeps the meaning, repeated hosts included: the compiled policy allows exactly what the raw one
      lists. */
  lemma CompilePreservesAllows(c: Compiled, raw: RawPolicy, hasher: Hasher, host: string, port: int)
    requires CompiledFrom(c, raw, hasher)
    ensures Permits(c.allow, host, port) <==> Permits(raw.allow, host, port)
    ensures Allowed(c, host, port) <==> Permits(raw.allow, host, port)
  {
    AllowedIsPermitted(c, raw, hasher, host, port);
    CompiledRules(c, raw, hasher);
    if Permits(c.allow, host, port) {
      var i :| 0 <= i < |c.allow| && Normal(c.allow[i].host) == Normal(host) && port in c.allow[i].ports;
      var j :| 0 <= j < |raw.allow| && c.allow[i] == Canonical(raw.allow[j]);
      CanonicalPermits(raw.allow, j, host, port);
    } else if Permits(raw.allow, host, port) {
      var j :| 0 <= j < |raw.allow| && Normal(raw.allow[j].host) == Normal(host) && port in raw.allow[j].ports;
      CanonicalPermits(raw.allow, j, host, port);
    }
  }

  lemma CanonicalPermits(rules: seq<Rule>, j: nat, host: string, port: int)
    requires j < |rules| && RuleProblem(rules[j]).None?
    ensures var c := Canonical(rules[j]);
            && (Normal(c.host) == Normal(host) <==> Normal(rules[j].host) == Normal(host))
            && (port in c.ports <==> port in rules[j].ports)
  {
    CanonicalRule(rules[j]);
  }

  // ---- Canonical form ----

  ghost predicate DistinctHosts(rules: seq<Rule>) {
    forall i, j :: 0 <= i < j < |rules| ==> Normal(rules[i].host) != Normal(rules[j].host)
  }

  ghost predicate SameMeaning(a: seq<Rule>, b: seq<Rule>) {
    forall host, port :: Permits(a, host, port) <==> Permits(b, host, port)
  }

  lemma CompiledHostsAscend(c: Compiled, raw: RawPolicy, hasher: Hasher)
    requires CompiledFrom(c, raw, hasher) && DistinctHosts(raw.allow)
    ensures StrictlySorted(c.allow, HostLess)
  {
    var rules := CanonicalRules(raw.allow);
    forall i, j | 0 <= i < j < |c.allow| ensures HostLess(c.allow[i], c.allow[j]) {
      StringLessTrichotomy(c.allow[i].host, c.allow[j].host);
      if c.allow[i].host == c.allow[j].host {
        HostsRepeat(rules, c.allow, i, j);
        assert false;
      }
    }
  }

  lemma HostsRepeat(rules: seq<Rule>, sorted: seq<Rule>, i: nat, j: nat)
    requires i < j < |sorted| && sorted[i].host == sorted[j].host && multiset(sorted) == multiset(rules)
    ensures exists a, b :: 0 <= a < b < |rules| && rules[a].host == rules[b].host
  {
    if sorted[i] == sorted[j] {
      TwiceInPermutation(rules, sorted, i, j);
    } else {
      assert sorted[i] in multiset(rules) && sorted[j] in multiset(rules);
      var a :| 0 <= a < |rules| && rules[a] == sorted[i];
      var b :| 0 <= b < |rules| && rules[b] == sorted[j];
      assert a < b || b < a;
    }
  }

  /** With distinct hosts, a compiled rule lists exactly the ports its host is allowed. */
  lemma RuleIsMeaning(c: Compiled, i: nat, port: int)
    requires StrictlySorted(c.allow, HostLess) && i < |c.allow|
    requires forall j :: 0 <= j < |c.allow| ==> Normal(c.allow[j].host) == c.allow[j].host
    ensures port in c.allow[i].ports <==> Permits(c.allow, c.allow[i].host, port)
  {
    forall j | 0 <= j < |c.allow| && j != i ensures c.allow[j].host != c.allow[i].host {
      StringLessTrichotomy(c.allow[i].host, c.allow[j].host);
      assert if i < j then HostLess(c.allow[i], c.allow[j]) else HostLess(c.allow[j], c.allow[i]);
    }
  }

  lemma RuleCarriesOver(c: Compiled, d: Compiled, rawC: RawPolicy, rawD: RawPolicy, hasher: Hasher, i: nat)
    requires CompiledFrom(c, rawC, hasher) && CompiledFrom(d, rawD, hasher)
    requires StrictlySorted(c.allow, HostLess) && StrictlySorted(d.allow, HostLess) && SameMeaning(c.allow, d.allow)
    requires i < |c.allow|
    ensures c.allow[i] in d.allow
  {
    var r := c.allow[i];
    forall j | 0 <= j < |c.allow| ensures Normal(c.allow[j].host) == c.allow[j].host {
      CompiledRuleShape(c, rawC, hasher, j);
    }
    forall j | 0 <= j < |d.allow| ensures Normal(d.allow[j].host) == d.allow[j].host {
      CompiledRuleShape(d, rawD, hasher, j);
    }
    CompiledRuleShape(c, rawC, hasher, i);
    RuleIsMeaning(c, i, r.ports[0]);
    assert Permits(d.allow, r.host, r.ports[0]);
    var k :| 0 <= k < |d.allow| && Normal(d.allow[k].host) == Normal(r.host) && r.ports[0] in d.allow[k].ports;
    forall p ensures p in r.ports <==> p in d.allow[k].ports {
      RuleIsMeaning(c, i, p);
      RuleIsMeaning(d, k, p);
      assert Permits(c.allow, r.host, p) <==> Permits(d.allow, r.host, p);
    }
    CompiledRuleShape(d, rawD, hasher, k);
    StrictlySortedUnique(r.ports, d.allow[k].ports, IntLess);
  }

  lemma SameMeaningSameRules(c: Compiled, d: Compiled, rawC: RawPolicy, rawD: RawPolicy, hasher: Hasher)
    requires CompiledFrom(c, rawC, hasher) && CompiledFrom(d, rawD, hasher)
    requires StrictlySorted(c.allow, HostLess) && StrictlySorted(d.allow, HostLess) && SameMeaning(c.allow, d.allow)
    ensures c.allow == d.allow
  {
    forall i | 0 <= i < |c.allow| ensures c.allow[i] in d.allow {
      RuleCarriesOver(c, d, rawC, rawD, hasher, i);
    }
    forall i | 0 <= i < |d.allow| ensures d.allow[i] in c.allow {
      RuleCarriesOver(d, c, rawD, rawC, hasher, i);
    }
    forall x, y | x in c.allow && y in c.allow ensures !(HostLess(x, y) && HostLess(y, x)) {
      StringLessTrichotomy(x.host, y.host);
    }
    StrictlySortedUnique(c.allow, d.allow, HostLess);
  }

  lemma AscendingHostsDiffer(rules: seq<Rule>)
    requires StrictlySorted(rules, HostLess)
    ensures forall i, j :: 0 <= i < j < |rules| ==> rules[i].host != rules[j].host
  {
    forall i, j | 0 <= i < j < |rules| ensures rules[i].host != rules[j].host {
      assert HostLess(rules[i], rules[j]);
      StringLessTrichotomy(rules[i].host, rules[j].host);
    }
  }

  /** Hosts that are distinct in the compiled rules were distinct in the raw ones. */
  lemma AscendingFromDistinct(c: Compiled, raw: RawPolicy, hasher: Hasher)
    requires CompiledFrom(c, raw, hasher) && StrictlySorted(c.allow, HostLess)
    ensures DistinctHosts(raw.allow)
  {
    var rules := CanonicalRules(raw.allow);
    AscendingHostsDiffer(c.allow);
    forall i, j | 0 <= i < j < |raw.allow| ensures Normal(raw.allow[i].host) != Normal(raw.allow[j].host) {
      if rules[i].host == rules[j].host {
        HostsRepeat(c.allow, rules, i, j);
        assert false;
      }
    }
  }

  lemma SameCompiledMeaning(c: Compiled, rawC: RawPolicy, rawD: RawPolicy, d: Compiled, hasher: Hasher)
    requires CompiledFrom(c, rawC, hasher) && CompiledFrom(d, rawD, hasher)
    ensures SameMeaning(rawC.allow, rawD.allow) <==> SameMeaning(c.allow, d.allow)
  {
    forall host, port
      ensures Permits(c.allow, host, port) <==> Permits(rawC.allow, host, port)
      ensures Permits(d.allow, host, port) <==> Permits(rawD.allow, host, port)
    {
      CompilePreservesAllows(c, rawC, hasher, host, port);
      CompilePreservesAllows(d, rawD, hasher, host, port);
    }
  }

  /** Against a policy with distinct hosts, another one compiles to the same policy, hash included, exactly when its
      hosts are distinct too, it names the same image, agrees on docker and allows the same hosts and ports: so
      order, repeated ports, case and spacing of hosts do not matter, and nothing else is lost. */
  lemma {:induction false} CanonicalForm(rawC: RawPolicy, rawD: RawPolicy, c: Compiled, d: Compiled, hasher: Hasher)
    requires CompiledFrom(c, rawC, hasher) && CompiledFrom(d, rawD, hasher) && DistinctHosts(rawD.allow)
    ensures c == d <==>
              && DistinctHosts(rawC.allow) && SameMeaning(rawC.allow, rawD.allow)
              && TrimSpace(rawC.imageRef) == TrimSpace(rawD.imageRef) && rawC.docker == rawD.docker
  {
    SameCompiledMeaning(c, rawC, rawD, d, hasher);
    CompiledHostsAscend(d, rawD, hasher);
    if c == d {
      AscendingFromDistinct(c, rawC, hasher);
    }
    if DistinctHosts(rawC.allow) && SameMeaning(rawC.allow, rawD.allow) {
      CompiledHostsAscend(c, rawC, hasher);
      SameMeaningSameRules(c, d, rawC, rawD, hasher);
    }
    SameImage(c, d, rawC, rawD, hasher);
  }

  lemma SameImage(c: Compiled, d: Compiled, rawC: RawPolicy, rawD: RawPolicy, hasher: Hasher)
    requires CompiledFrom(c, rawC, hasher) && CompiledFrom(d, rawD, hasher)
    ensures c == d <==>
              && TrimSpace(rawC.imageRef) == TrimSpace(rawD.imageRef) && rawC.docker == rawD.docker
              && c.allow == d.allow
  {
  }

  /** An instance: one rule cut in two means the same, yet no compiled form of the one is one of the other. */
  lemma RepeatedHostsLoseCanonicalForm(rawC: RawPolicy, rawD: RawPolicy, c: Compiled, d: Compiled, hasher: Hasher)
    requires rawC.allow == [Rule("a", [80]), Rule("a", [443])] && rawD.allow == [Rule("a", [80, 443])]
    requires CompiledFrom(c, rawC, hasher) && CompiledFrom(d, rawD, hasher)
    ensures SameMeaning(rawC.allow, rawD.allow) && c.allow != d.allow
  {
    forall host, port ensures Permits(rawC.allow, host, port) <==> Permits(rawD.allow, host, port) {
      var hit := Normal("a") == Normal(host) && (port == 80 || port == 443);
      assert hit ==> Permits(rawC.allow, host, port) by {
        if hit {
          var i := if port == 80 then 0 else 1;
          assert port in rawC.allow[i].ports;
        }
      }
      assert hit ==> Permits(rawD.allow, host, port) by {
        assert hit ==> port in rawD.allow[0].ports;
      }
    }
    assert |multiset(c.allow)| == |CanonicalRules(rawC.allow)| && |multiset(d.allow)| == |CanonicalRules(rawD.allow)|;
  }

  // ---- Messages ----

  function Int32s(xs: seq<int>): seq<int> {
    seq(|xs|, i requires 0 <= i < |xs| => Int32(xs[i]))
  }

  function ProtoRules(rules: seq<Rule>): seq<Rule> {
    seq(|rules|, i requires 0 <= i < |rules| => Rule(rules[i].host, Int32s(rules[i].ports)))
  }

  function ProtoOf(p: Compiled): Proto {
    p.(version := Int32(p.version), allow := ProtoRules(p.allow))
  }

  method ToProto(p: Compiled) returns (pb: Proto)
    ensures pb == ProtoOf(p)
  {
    var allow := [];
    for i := 0 to |p.allow|
      invariant allow == ProtoRules(p.allow[..i])
    {
      var ports := [];
      for j := 0 to |p.allow[i].ports|
        invariant ports == Int32s(p.allow[i].ports[..j])
      {
        ports := ports + [Int32(p.allow[i].ports[j])];
      }
      assert p.allow[i].ports[..|p.allow[i].ports|] == p.allow[i].ports;
      allow := allow + [Rule(p.allow[i].host, ports)];
    }
    assert p.allow[..|p.allow|] == p.allow;
    pb := p.(version := Int32(p.version), allow := allow);
  }

  function RawOf(pb: Proto): RawPolicy {
    RawPolicy(pb.version, pb.imageRef, pb.docker, pb.networkDefault, pb.allow)
  }

  predicate DigestAgrees(pb: Proto) {
    var given := TrimSpace(pb.imageDigest);
    given == ""
        || (ParseDigestReference(pb.imageRef).Some? && given == ParseDigestReference(pb.imageRef).value.Digest())
  }

  function ProtoProblem(pb: Proto): Option<Problem> {
    var p := ImageProblem(pb.version, pb.imageRef);
    if p.Some? then p
    else if !DigestAgrees(pb) then Some(DigestMismatch)
    else RulesProblem(pb.networkDefault, pb.allow)
  }

  /** What FromProto may answer: the message is refused, or compiled and its hash compared. */
  ghost predicate Decoded(pb: Proto, r: Result<Compiled, Problem>, hasher: Hasher) {
    match ProtoProblem(pb)
    case Some(problem) => r == Err(problem)
    case None =>
      exists c :: CompiledFrom(c, RawOf(pb), hasher)
                  && r == if pb.hash != "" && pb.hash != c.hash then Err(HashMismatch) else Ok(c)
  }

  method FromProto(message: Option<Proto>, hasher: Hasher) returns (r: Result<Compiled, Problem>)
    ensures message.None? ==> r == Err(MissingPolicy)
    ensures message.Some? ==> Decoded(message.value, r, hasher)
  {
    if message.None? {
      return Err(MissingPolicy);
    }
    var pb := message.value;
    var image := CheckImage(pb.version, pb.imageRef);
    if image.Err? {
      return Err(image.error);
    }
    var given := TrimSpace(pb.imageDigest);
    if given != "" && given != image.value.Digest() {
      return Err(DigestMismatch);
    }
    if !DenyDefault(pb.networkDefault) {
      return Err(UnsupportedDefault);
    }
    var allow := CompileRules(pb.allow);
    if allow.Err? {
      return Err(allow.error);
    }
    var c := Assemble(RawOf(pb), allow.value, hasher);
    r := if pb.hash != "" && pb.hash != c.hash then Err(HashMismatch) else Ok(c);
  }

  lemma ProtoKeepsRules(c: Compiled, raw: RawPolicy, hasher: Hasher)
    requires CompiledFrom(c, raw, hasher)
    ensures ProtoRules(c.allow) == c.allow && ProtoOf(c) == c
  {
    forall i | 0 <= i < |c.allow| ensures Int32s(c.allow[i].ports) == c.allow[i].ports {
      CompiledRuleShape(c, raw, hasher, i);
      forall j | 0 <= j < |c.allow[i].ports| ensures Int32(c.allow[i].ports[j]) == c.allow[i].ports[j] {
        assert ValidPort(c.allow[i].ports[j]);
      }
    }
  }

  /** A compiled policy's rules are canonical and raise no problem when read back. */
  lemma {:induction false} CompiledIsFixed(c: Compiled, raw: RawPolicy, hasher: Hasher)
    requires CompiledFrom(c, raw, hasher)
    ensures CanonicalRules(c.allow) == c.allow && FirstProblem(c.allow).None?
  {
    forall i | 0 <= i < |c.allow| ensures Canonical(c.allow[i]) == c.allow[i] && RuleProblem(c.allow[i]).None? {
      CompiledRuleShape(c, raw, hasher, i);
      AscendingIsFixed(c.allow[i].ports);
      NoInvalid(c.allow[i].host, c.allow[i].ports);
    }
    FirstProblemSplit(c.allow, |c.allow|);
  }

  lemma DenyIsNormal()
    ensures DenyDefault("deny")
  {
    assert ToLower("deny") == "deny";
    TrimmedIsFixed("deny");
  }

  lemma MessageIsAccepted(c: Compiled, raw: RawPolicy, hasher: Hasher)
    requires CompiledFrom(c, raw, hasher)
    ensures ProtoProblem(ProtoOf(c)).None? && RawProblem(RawOf(ProtoOf(c))).None?
  {
    ProtoKeepsRules(c, raw, hasher);
    CompiledIsFixed(c, raw, hasher);
    ReferenceIsStable(raw.imageRef);
    DenyIsNormal();
  }

  lemma ReadBack(c: Compiled, raw: RawPolicy, q: Compiled, hasher: Hasher)
    requires CompiledFrom(c, raw, hasher) && CompiledFrom(q, RawOf(ProtoOf(c)), hasher)
    ensures q == c.(allow := q.allow, hash := q.hash)
  {
    ProtoKeepsRules(c, raw, hasher);
    ImageIsStable(c, raw, hasher);
    FromMessage(q, RawOf(ProtoOf(c)), hasher);
    FromMessage(c, raw, hasher);
  }

  /** The reference of a compiled policy parses to its own image and digest. */
  lemma ImageIsStable(c: Compiled, raw: RawPolicy, hasher: Hasher)
    requires CompiledFrom(c, raw, hasher)
    ensures var ref := ParseDigestReference(c.imageRef);
            ref.Some? && ref.value.original == c.imageRef && ref.value.Digest() == c.imageDigest
  {
    ReferenceIsStable(raw.imageRef);
  }

  lemma FromMessage(q: Compiled, raw: RawPolicy, hasher: Hasher)
    requires CompiledFrom(q, raw, hasher)
    ensures ParseDigestReference(raw.imageRef).Some?
    ensures var ref := ParseDigestReference(raw.imageRef).value;
            && q.version == 1 && q.imageRef == ref.original && q.imageDigest == ref.Digest()
            && q.docker == raw.docker && q.networkDefault == "deny"
  {
  }

  /** Rules of one host do not differ from each other. */
  ghost predicate AgreeOnHosts(rules: seq<Rule>) {
    forall i, j :: 0 <= i < j < |rules| && rules[i].host == rules[j].host ==> rules[i] == rules[j]
  }

  /** Then there is only one way to sort them by host. */
  lemma {:induction false} SortIsUnique(a: seq<Rule>, b: seq<Rule>)
    requires SortedBy(a, HostLess) && SortedBy(b, HostLess) && multiset(a) == multiset(b) && AgreeOnHosts(a)
    ensures a == b
  {
    assert |a| == |multiset(a)| && |b| == |multiset(b)|;
    if a != [] {
      SameMembers(a, b);
      assert a[0] in b && b[0] in a;
      StringLessTrichotomy(a[0].host, b[0].host);
      FirstIsLeast(a, b[0]);
      FirstIsLeast(b, a[0]);
      assert a[0] == b[0];
      SameTails(a, b);
      SortIsUnique(a[1..], b[1..]);
    }
  }

  lemma SameTails(a: seq<Rule>, b: seq<Rule>)
    requires a != [] && b != [] && a[0] == b[0] && multiset(a) == multiset(b)
    ensures multiset(a[1..]) == multiset(b[1..])
  {
    assert a == [a[0]] + a[1..] && b == [b[0]] + b[1..];
    assert multiset(a[1..]) == multiset(a) - multiset{a[0]};
    assert multiset(b[1..]) == multiset(b) - multiset{b[0]};
  }

  lemma FirstIsLeast(s: seq<Rule>, r: Rule)
    requires SortedBy(s, HostLess) && r in s
    ensures !HostLess(r, s[0])
  {
    StringLessTrichotomy(r.host, r.host);
  }

  /** Two differing rules of one host can change places without disturbing the order by host. */
  lemma SwapKeepsOrder(rules: seq<Rule>, i: nat, j: nat) returns (swapped: seq<Rule>)
    requires SortedBy(rules, HostLess) && i < j < |rules| && rules[i].host == rules[j].host && rules[i] != rules[j]
    ensures SortedBy(swapped, HostLess) && multiset(swapped) == multiset(rules) && swapped != rules
  {
    swapped := rules[i := rules[j]][j := rules[i]];
    assert forall k :: 0 <= k < |rules| ==> swapped[k].host == rules[k].host;
    forall a, b | 0 <= a < b < |swapped| ensures !HostLess(swapped[b], swapped[a]) {
      assert !HostLess(rules[b], rules[a]);
    }
    assert swapped[i] != rules[i];
  }

  /** Anything sorted the other way is also a compiled form of the message. */
  lemma ReadAsSorted(c: Compiled, raw: RawPolicy, allow: seq<Rule>, hasher: Hasher) returns (q: Compiled)
    requires CompiledFrom(c, raw, hasher) && SortedBy(allow, HostLess) && multiset(allow) == multiset(c.allow)
    ensures CompiledFrom(q, RawOf(ProtoOf(c)), hasher) && q.allow == allow
  {
    MessageIsAccepted(c, raw, hasher);
    ProtoKeepsRules(c, raw, hasher);
    CompiledIsFixed(c, raw, hasher);
    ImageIsStable(c, raw, hasher);
    var blank := c.(allow := allow, hash := "");
    q := blank.(hash := hasher(blank));
    FromMessage(c, raw, hasher);
  }

  /** Whatever comes back has the same meaning, or is refused because the sort ordered equal hosts differently. */
  lemma RoundTripKeepsMeaning(c: Compiled, raw: RawPolicy, r: Result<Compiled, Problem>, hasher: Hasher)
    requires CompiledFrom(c, raw, hasher) && Decoded(ProtoOf(c), r, hasher)
    ensures r.Err? ==> r.error.HashMismatch?
    ensures r.Ok? ==> SameMeaning(r.value.allow, c.allow)
    ensures AgreeOnHosts(c.allow) ==> r == Ok(c)
  {
    MessageIsAccepted(c, raw, hasher);
    ProtoKeepsRules(c, raw, hasher);
    var q :| CompiledFrom(q, RawOf(ProtoOf(c)), hasher)
             && r == if c.hash != "" && c.hash != q.hash then Err(HashMismatch) else Ok(q);
    ReadBack(c, raw, q, hasher);
    forall host, port ensures Permits(q.allow, host, port) <==> Permits(c.allow, host, port) {
      CompilePreservesAllows(q, RawOf(ProtoOf(c)), hasher, host, port);
    }
    if AgreeOnHosts(c.allow) {
      CompiledIsFixed(c, raw, hasher);
      SortIsUnique(c.allow, q.allow);
    }
  }

  lemma OtherOrderComesBack(c: Compiled, raw: RawPolicy, hasher: Hasher) returns (r: Result<Compiled, Problem>)
    requires CompiledFrom(c, raw, hasher) && !AgreeOnHosts(c.allow)
    ensures Decoded(ProtoOf(c), r, hasher) && r != Ok(c)
  {
    var i, j :| 0 <= i < j < |c.allow| && c.allow[i].host == c.allow[j].host && c.allow[i] != c.allow[j];
    var swapped := SwapKeepsOrder(c.allow, i, j);
    var q := ReadAsSorted(c, raw, swapped, hasher);
    MessageIsAccepted(c, raw, hasher);
    ProtoKeepsRules(c, raw, hasher);
    r := if c.hash != "" && c.hash != q.hash then Err(HashMismatch) else Ok(q);
  }

  /** Round trip: a compiled policy is sure to come back from its message unchanged exactly when rules of one host
      do not differ; distinct hosts are enough. */
  lemma {:induction false} RoundTrip(c: Compiled, raw: RawPolicy, hasher: Hasher)
    requires CompiledFrom(c, raw, hasher)
    ensures (forall r :: Decoded(ProtoOf(c), r, hasher) ==> r == Ok(c)) <==> AgreeOnHosts(c.allow)
    ensures DistinctHosts(raw.allow) ==> AgreeOnHosts(c.allow)
  {
    if AgreeOnHosts(c.allow) {
      forall r | Decoded(ProtoOf(c), r, hasher) ensures r == Ok(c) {
        RoundTripKeepsMeaning(c, raw, r, hasher);
      }
    } else {
      var r := OtherOrderComesBack(c, raw, hasher);
    }
    if DistinctHosts(raw.allow) {
      CompiledHostsAscend(c, raw, hasher);
      AscendingHostsDiffer(c.allow);
    }
  }
}

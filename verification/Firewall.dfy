/** pkg/iptables/iptables.go: the compilation of a firewall configuration and the text of the
    current nat table into iptables commands. */
module Firewall {
  import opened Text
  import opened PortRanges
  import opened Multiport
  import opened NatTable
  import opened SavedTable

  const PREROUTING := "PREROUTING"
  const OUTPUT := "OUTPUT"
  const OUTPUT_CHAIN := "PROXY_INIT_OUTPUT"
  const REDIRECT_CHAIN := "PROXY_INIT_REDIRECT"
  const REDIRECT_ALL_MODE := "redirect-all"
  const REDIRECT_LISTED_MODE := "redirect-listed"

  datatype FirewallConfiguration = FirewallConfiguration(
    mode: string,
    portsToRedirectInbound: seq<int>,
    inboundPortsToIgnore: seq<string>,
    outboundPortsToIgnore: seq<string>,
    subnetsToIgnore: seq<Subnet>,
    proxyInboundPort: int,
    proxyOutgoingPort: int,
    proxyUid: int,
    proxyGid: int)

  // ---- Rules -----------------------------------------------------------------------------

  function FormatComment(text: string): Match { Comment("proxy-init/" + text) }

  function IgnorePorts(destinations: seq<string>): Rule {
    var dports := Join(destinations, ',');
    Rule([ProtoTcp, MultiportDports(dports), FormatComment("ignore-port-" + dports)], Return)
  }

  function IgnoreSubnet(s: Subnet): Rule {
    Rule([Source(s), FormatComment("ignore-subnet-" + s.text)], Return)
  }

  function RedirectTo(toPort: int, comment: string): Rule {
    Rule([ProtoTcp, FormatComment(comment)], Redirect(toPort))
  }

  function RedirectPort(port: int, toPort: int): Rule {
    Rule([ProtoTcp, DestinationPort(port),
          FormatComment("redirect-port-" + IntText(port) + "-to-proxy-port")], Redirect(toPort))
  }

  const IGNORE_LOOPBACK := Rule([OutIface("lo"), FormatComment("ignore-loopback")], Return)

  const PREROUTING_JUMP := Rule([FormatComment("install-proxy-init-prerouting")], Jump(REDIRECT_CHAIN))

  const OUTPUT_JUMP := Rule([FormatComment("install-proxy-init-output")], Jump(OUTPUT_CHAIN))

  lemma {:induction false} HooksAreEntries()
    ensures PREROUTING == Entry(Arriving) && OUTPUT == Entry(Sent)
  {}

  lemma {:induction false} InboundJumpByName()
    ensures PREROUTING_JUMP ==
            Rule([Comment("proxy-init/install-proxy-init-prerouting")], Jump("PROXY_INIT_REDIRECT"))
    ensures REDIRECT_CHAIN == "PROXY_INIT_REDIRECT"
  {
    assert "proxy-init/" + "install-proxy-init-prerouting" == "proxy-init/install-proxy-init-prerouting";
  }

  lemma {:induction false} OutboundJumpByName()
    ensures OUTPUT_JUMP == Rule([Comment("proxy-init/install-proxy-init-output")], Jump("PROXY_INIT_OUTPUT"))
    ensures OUTPUT_CHAIN == "PROXY_INIT_OUTPUT"
  {
    assert "proxy-init/" + "install-proxy-init-output" == "proxy-init/install-proxy-init-output";
  }

  function IgnorePortsRules(ports: seq<string>): (rules: seq<Rule>)
    ensures |rules| == |Chunks(ports)|
  {
    ChunksKeepValid(ports);
    seq(|Chunks(ports)|,
        k requires 0 <= k < |Chunks(ports)| => IgnorePorts(AllDestinations(Chunks(ports))[k]))
  }

  function IgnoreSubnetsRules(subnets: seq<Subnet>): (rules: seq<Rule>)
    ensures |rules| == |subnets|
  {
    seq(|subnets|, k requires 0 <= k < |subnets| => IgnoreSubnet(subnets[k]))
  }

  function RedirectRules(fc: FirewallConfiguration): seq<Rule> {
    if fc.mode == REDIRECT_ALL_MODE then
      [RedirectTo(fc.proxyInboundPort, "redirect-all-incoming-to-proxy-port")]
    else if fc.mode == REDIRECT_LISTED_MODE then
      var ports := fc.portsToRedirectInbound;
      seq(|ports|, k requires 0 <= k < |ports| => RedirectPort(ports[k], fc.proxyInboundPort))
    else []
  }

  /** What PROXY_INIT_REDIRECT holds once configured. */
  function InboundRules(fc: FirewallConfiguration): seq<Rule> {
    IgnorePortsRules(fc.inboundPortsToIgnore) + IgnoreSubnetsRules(fc.subnetsToIgnore) + RedirectRules(fc)
  }

  function IgnoreUserId(uid: nat): Rule {
    Rule([OwnerUid(uid), FormatComment("ignore-proxy-user-id")], Return)
  }

  function IgnoreGroupId(gid: nat): Rule {
    Rule([OwnerGid(gid), FormatComment("ignore-proxy-group-id")], Return)
  }

  function OwnerRules(fc: FirewallConfiguration): seq<Rule> {
    (if fc.proxyUid > 0 then [IgnoreUserId(fc.proxyUid)] else [])
    + (if fc.proxyGid > 0 then [IgnoreGroupId(fc.proxyGid)] else [])
  }

  /** What PROXY_INIT_OUTPUT holds once configured. */
  function OutboundRules(fc: FirewallConfiguration): seq<Rule> {
    OwnerRules(fc) + [IGNORE_LOOPBACK] + IgnorePortsRules(fc.outboundPortsToIgnore)
    + [RedirectTo(fc.proxyOutgoingPort, "redirect-all-outgoing-to-proxy-port")]
  }

  /** The rule says whose it is: its last match, and no other, is a comment that begins so. */
  predicate Labelled(r: Rule) {
    && r.matches != []
    && r.matches[|r.matches| - 1].Comment? && HasPrefix(r.matches[|r.matches| - 1].comment, "proxy-init/")
    && forall k :: 0 <= k < |r.matches| - 1 ==> !r.matches[k].Comment?
  }

  lemma {:induction false} LabelAtEnd(r: Rule, text: string)
    requires 1 <= |r.matches| <= 3 && r.matches[|r.matches| - 1] == FormatComment(text)
    requires |r.matches| >= 2 ==> !r.matches[0].Comment?
    requires |r.matches| == 3 ==> !r.matches[1].Comment?
    ensures Labelled(r)
  {}

  lemma {:induction false} IgnoresLabelled(ports: seq<string>, subnets: seq<Subnet>)
    ensures forall r <- IgnorePortsRules(ports) :: Labelled(r)
    ensures forall r <- IgnoreSubnetsRules(subnets) :: Labelled(r)
  {
    forall destinations ensures Labelled(IgnorePorts(destinations)) {
      LabelAtEnd(IgnorePorts(destinations), "ignore-port-" + Join(destinations, ','));
    }
    forall s ensures Labelled(IgnoreSubnet(s)) {
      LabelAtEnd(IgnoreSubnet(s), "ignore-subnet-" + s.text);
    }
  }

  lemma {:induction false} RedirectsLabelled(fc: FirewallConfiguration)
    ensures forall r <- RedirectRules(fc) :: Labelled(r)
  {
    forall toPort, comment ensures Labelled(RedirectTo(toPort, comment)) {
      LabelAtEnd(RedirectTo(toPort, comment), comment);
    }
    forall port, toPort ensures Labelled(RedirectPort(port, toPort)) {
      LabelAtEnd(RedirectPort(port, toPort), "redirect-port-" + IntText(port) + "-to-proxy-port");
    }
  }

  lemma {:induction false} OutboundLabelled(fc: FirewallConfiguration)
    ensures forall r <- OwnerRules(fc) :: Labelled(r)
    ensures Labelled(IGNORE_LOOPBACK)
    ensures Labelled(RedirectTo(fc.proxyOutgoingPort, "redirect-all-outgoing-to-proxy-port"))
  {
    forall r <- OwnerRules(fc) ensures Labelled(r) {
      LabelAtEnd(r, if r.matches[0].OwnerUid? then "ignore-proxy-user-id" else "ignore-proxy-group-id");
    }
    LabelAtEnd(IGNORE_LOOPBACK, "ignore-loopback");
    LabelAtEnd(RedirectTo(fc.proxyOutgoingPort, "redirect-all-outgoing-to-proxy-port"),
               "redirect-all-outgoing-to-proxy-port");
  }

  /** Every rule of ours, the two jumps included, can be told by its comment. */
  lemma {:induction false} EveryRuleIsLabelled(fc: FirewallConfiguration)
    ensures forall r <- InboundRules(fc) :: Labelled(r)
    ensures forall r <- OutboundRules(fc) :: Labelled(r)
    ensures Labelled(PREROUTING_JUMP) && Labelled(OUTPUT_JUMP)
  {
    IgnoresLabelled(fc.inboundPortsToIgnore, fc.subnetsToIgnore);
    IgnoresLabelled(fc.outboundPortsToIgnore, []);
    RedirectsLabelled(fc);
    OutboundLabelled(fc);
    LabelAtEnd(PREROUTING_JUMP, "install-proxy-init-prerouting");
    LabelAtEnd(OUTPUT_JUMP, "install-proxy-init-output");
  }

  // ---- Commands --------------------------------------------------------------------------

  /** What the four patterns report about the current table. */
  datatype Seen = Seen(redirectChain: bool, outputChain: bool, preroutingJump: bool, outputJump: bool)

  function Scan(existingRules: string): Seen {
    Seen(ChainPattern(existingRules, REDIRECT_CHAIN),
         ChainPattern(existingRules, OUTPUT_CHAIN),
         JumpPattern(existingRules, PREROUTING, REDIRECT_CHAIN),
         JumpPattern(existingRules, OUTPUT, OUTPUT_CHAIN))
  }

  lemma {:induction false} InboundPatternByName()
    ensures "-A " + PREROUTING + " " == "-A PREROUTING " && "-j " + REDIRECT_CHAIN == "-j PROXY_INIT_REDIRECT"
    ensures ":" + REDIRECT_CHAIN + " " == ":PROXY_INIT_REDIRECT "
  {}

  lemma {:induction false} OutboundPatternByName()
    ensures "-A " + OUTPUT + " " == "-A OUTPUT " && "-j " + OUTPUT_CHAIN == "-j PROXY_INIT_OUTPUT"
    ensures ":" + OUTPUT_CHAIN + " " == ":PROXY_INIT_OUTPUT "
  {}

  /** The four expressions, matched line by line. */
  lemma {:induction false} ScanByName(text: string)
    ensures Scan(text).redirectChain <==>
            exists line <- Split(text, '\n') :: HasPrefix(line, ":PROXY_INIT_REDIRECT ")
    ensures Scan(text).outputChain <==>
            exists line <- Split(text, '\n') :: HasPrefix(line, ":PROXY_INIT_OUTPUT ")
    ensures Scan(text).preroutingJump <==>
            exists line <- Split(text, '\n') :: GroupedMatch(line, "-A PREROUTING ", "-j PROXY_INIT_REDIRECT")
    ensures Scan(text).outputJump <==>
            exists line <- Split(text, '\n') :: GroupedMatch(line, "-A OUTPUT ", "-j PROXY_INIT_OUTPUT")
  {
    InboundPatternByName();
    OutboundPatternByName();
    JumpPatternByLine(text, PREROUTING, REDIRECT_CHAIN);
    JumpPatternByLine(text, OUTPUT, OUTPUT_CHAIN);
  }

  function Appends(chain: string, rules: seq<Rule>): (cmds: seq<Command>)
    ensures |cmds| == |rules|
  {
    seq(|rules|, k requires 0 <= k < |rules| => Append(chain, rules[k]))
  }

  /** The commands for one hook: create or flush the chain, fill it, and install the jump
      unless it was seen. */
  datatype Half = Half(hook: string, chain: string, rules: seq<Rule>, jump: Rule, chainSeen: bool, jumpSeen: bool)
  {
    function Commands(): seq<Command> {
      [if chainSeen then FlushChain(chain) else NewChain(chain)] + Appends(chain, rules) + JumpCommand()
    }

    function JumpCommand(): seq<Command> {
      if jumpSeen then [] else [Append(hook, jump)]
    }
  }

  function Inbound(fc: FirewallConfiguration, seen: Seen): Half {
    Half(PREROUTING, REDIRECT_CHAIN, InboundRules(fc), PREROUTING_JUMP, seen.redirectChain, seen.preroutingJump)
  }

  function Outbound(fc: FirewallConfiguration, seen: Seen): Half {
    Half(OUTPUT, OUTPUT_CHAIN, OutboundRules(fc), OUTPUT_JUMP, seen.outputChain, seen.outputJump)
  }

  /** Everything ConfigureFirewall runs. */
  function Compile(fc: FirewallConfiguration, seen: Seen): seq<Command> {
    Inbound(fc, seen).Commands() + Outbound(fc, seen).Commands()
  }

  /** Everything CleanupFirewallConfig runs. */
  function CleanupRules(): seq<Command> {
    [Delete(PREROUTING, PREROUTING_JUMP), Delete(OUTPUT, OUTPUT_JUMP),
     FlushChain(OUTPUT_CHAIN), FlushChain(REDIRECT_CHAIN),
     DeleteChain(OUTPUT_CHAIN), DeleteChain(REDIRECT_CHAIN)]
  }

  // ---- The builders that grow the command list -------------------------------------------

  lemma {:induction false} AppendsNext(chain: string, rules: seq<Rule>, i: nat)
    requires i < |rules|
    ensures Appends(chain, rules[..i + 1]) == Appends(chain, rules[..i]) + [Append(chain, rules[i])]
  {}

  lemma {:induction false} AppendsConcat(chain: string, a: seq<Rule>, b: seq<Rule>)
    ensures Appends(chain, a + b) == Appends(chain, a) + Appends(chain, b)
  {}

  lemma {:induction false} IgnoredPortsNext(ports: seq<string>, chain: string, i: nat)
    requires i < |Chunks(ports)|
    ensures forall c <- Chunks(ports) :: AllValid(c)
    ensures Appends(chain, IgnorePortsRules(ports)[..i + 1]) ==
            Appends(chain, IgnorePortsRules(ports)[..i])
            + [Append(chain, IgnorePorts(AllDestinations(Chunks(ports))[i]))]
  {
    ChunksKeepValid(ports);
    AppendsNext(chain, IgnorePortsRules(ports), i);
  }

  method AddRulesForIgnoredPorts(portsToIgnore: seq<string>, chain: string, commands: seq<Command>)
    returns (r: seq<Command>)
    ensures r == commands + Appends(chain, IgnorePortsRules(portsToIgnore))
  {
    var slices := MakeMultiportDestinations(portsToIgnore);
    ghost var rules := IgnorePortsRules(portsToIgnore);
    r := commands;
    for i := 0 to |slices|
      invariant r == commands + Appends(chain, rules[..i])
    {
      IgnoredPortsNext(portsToIgnore, chain, i);
      r := r + [Append(chain, IgnorePorts(slices[i]))];
    }
    assert rules[..|slices|] == rules;
  }

  method AddRulesForIgnoredSubnets(fc: FirewallConfiguration, chain: string, commands: seq<Command>)
    returns (r: seq<Command>)
    ensures r == commands + Appends(chain, IgnoreSubnetsRules(fc.subnetsToIgnore))
  {
    ghost var rules := IgnoreSubnetsRules(fc.subnetsToIgnore);
    r := commands;
    for i := 0 to |fc.subnetsToIgnore|
      invariant r == commands + Appends(chain, rules[..i])
    {
      AppendsNext(chain, rules, i);
      r := r + [Append(chain, IgnoreSubnet(fc.subnetsToIgnore[i]))];
    }
    assert rules[..|rules|] == rules;
  }

  method AddRulesForInboundPortRedirect(fc: FirewallConfiguration, chain: string, commands: seq<Command>)
    returns (r: seq<Command>)
    ensures r == commands + Appends(chain, RedirectRules(fc))
  {
    r := commands;
    ghost var rules := RedirectRules(fc);
    if fc.mode == REDIRECT_ALL_MODE {
      r := r + [Append(chain, RedirectTo(fc.proxyInboundPort, "redirect-all-incoming-to-proxy-port"))];
    } else if fc.mode == REDIRECT_LISTED_MODE {
      for i := 0 to |fc.portsToRedirectInbound|
        invariant r == commands + Appends(chain, rules[..i])
      {
        AppendsNext(chain, rules, i);
        r := r + [Append(chain, RedirectPort(fc.portsToRedirectInbound[i], fc.proxyInboundPort))];
      }
      assert rules[..|rules|] == rules;
    }
  }

  lemma {:induction false} Regroup<T>(
    x: seq<T>, first: seq<T>, a: seq<T>, b: seq<T>, c: seq<T>, d: seq<T>, last: seq<T>)
    ensures x + (first + (a + b + c + d) + last) == x + first + a + b + c + d + last
    ensures d == [] ==> x + (first + (a + b + c) + last) == x + first + a + b + c + last
  {}

  lemma {:induction false} IncomingParts(fc: FirewallConfiguration, seen: Seen, commands: seq<Command>)
    ensures commands + Inbound(fc, seen).Commands() ==
            commands + [if seen.redirectChain then FlushChain(REDIRECT_CHAIN) else NewChain(REDIRECT_CHAIN)]
            + Appends(REDIRECT_CHAIN, IgnorePortsRules(fc.inboundPortsToIgnore))
            + Appends(REDIRECT_CHAIN, IgnoreSubnetsRules(fc.subnetsToIgnore))
            + Appends(REDIRECT_CHAIN, RedirectRules(fc))
            + (if seen.preroutingJump then [] else [Append(PREROUTING, PREROUTING_JUMP)])
  {
    var ports, subnets := IgnorePortsRules(fc.inboundPortsToIgnore), IgnoreSubnetsRules(fc.subnetsToIgnore);
    AppendsConcat(REDIRECT_CHAIN, ports, subnets);
    AppendsConcat(REDIRECT_CHAIN, ports + subnets, RedirectRules(fc));
    Regroup(commands, [if seen.redirectChain then FlushChain(REDIRECT_CHAIN) else NewChain(REDIRECT_CHAIN)],
      Appends(REDIRECT_CHAIN, ports), Appends(REDIRECT_CHAIN, subnets), Appends(REDIRECT_CHAIN, RedirectRules(fc)), [],
      if seen.preroutingJump then [] else [Append(PREROUTING, PREROUTING_JUMP)]);
  }

  lemma {:induction false} OwnerAppends(fc: FirewallConfiguration)
    ensures Appends(OUTPUT_CHAIN, OwnerRules(fc)) ==
            (if fc.proxyUid > 0 then [Append(OUTPUT_CHAIN, IgnoreUserId(fc.proxyUid))] else [])
            + (if fc.proxyGid > 0 then [Append(OUTPUT_CHAIN, IgnoreGroupId(fc.proxyGid))] else [])
  {}

  lemma {:induction false} OutgoingParts(fc: FirewallConfiguration, seen: Seen, commands: seq<Command>)
    ensures commands + Outbound(fc, seen).Commands() ==
            commands + [if seen.outputChain then FlushChain(OUTPUT_CHAIN) else NewChain(OUTPUT_CHAIN)]
            + Appends(OUTPUT_CHAIN, OwnerRules(fc)) + [Append(OUTPUT_CHAIN, IGNORE_LOOPBACK)]
            + Appends(OUTPUT_CHAIN, IgnorePortsRules(fc.outboundPortsToIgnore))
            + [Append(OUTPUT_CHAIN, RedirectTo(fc.proxyOutgoingPort, "redirect-all-outgoing-to-proxy-port"))]
            + (if seen.outputJump then [] else [Append(OUTPUT, OUTPUT_JUMP)])
  {
    var owner, ports := OwnerRules(fc), IgnorePortsRules(fc.outboundPortsToIgnore);
    var last := RedirectTo(fc.proxyOutgoingPort, "redirect-all-outgoing-to-proxy-port");
    AppendsConcat(OUTPUT_CHAIN, owner, [IGNORE_LOOPBACK]);
    AppendsConcat(OUTPUT_CHAIN, owner + [IGNORE_LOOPBACK], ports);
    AppendsConcat(OUTPUT_CHAIN, owner + [IGNORE_LOOPBACK] + ports, [last]);
    var loopback, redirect := [Append(OUTPUT_CHAIN, IGNORE_LOOPBACK)], [Append(OUTPUT_CHAIN, last)];
    assert Appends(OUTPUT_CHAIN, [IGNORE_LOOPBACK]) == loopback;
    assert Appends(OUTPUT_CHAIN, [last]) == redirect;
    Regroup(commands, [if seen.outputChain then FlushChain(OUTPUT_CHAIN) else NewChain(OUTPUT_CHAIN)],
      Appends(OUTPUT_CHAIN, owner), loopback, Appends(OUTPUT_CHAIN, ports), redirect,
      if seen.outputJump then [] else [Append(OUTPUT, OUTPUT_JUMP)]);
  }

  method AddIncomingTrafficRules(fc: FirewallConfiguration, existingRules: string, commands: seq<Command>)
    returns (r: seq<Command>)
    ensures r == commands + Inbound(fc, Scan(existingRules)).Commands()
  {
    ghost var seen := Scan(existingRules);
    IncomingParts(fc, seen, commands);
    r := commands + [if !ChainPattern(existingRules, REDIRECT_CHAIN) then NewChain(REDIRECT_CHAIN)
                     else FlushChain(REDIRECT_CHAIN)];
    r := AddRulesForIgnoredPorts(fc.inboundPortsToIgnore, REDIRECT_CHAIN, r);
    r := AddRulesForIgnoredSubnets(fc, REDIRECT_CHAIN, r);
    r := AddRulesForInboundPortRedirect(fc, REDIRECT_CHAIN, r);
    if !JumpPattern(existingRules, PREROUTING, REDIRECT_CHAIN) {
      r := r + [Append(PREROUTING, PREROUTING_JUMP)];
    }
  }

  method AddOutgoingTrafficRules(fc: FirewallConfiguration, existingRules: string, commands: seq<Command>)
    returns (r: seq<Command>)
    ensures r == commands + Outbound(fc, Scan(existingRules)).Commands()
  {
    ghost var seen := Scan(existingRules);
    OutgoingParts(fc, seen, commands);
    OwnerAppends(fc);
    r := commands + [if !ChainPattern(existingRules, OUTPUT_CHAIN) then NewChain(OUTPUT_CHAIN)
                     else FlushChain(OUTPUT_CHAIN)];
    if fc.proxyUid > 0 {
      r := r + [Append(OUTPUT_CHAIN, IgnoreUserId(fc.proxyUid))];
    }
    if fc.proxyGid > 0 {
      r := r + [Append(OUTPUT_CHAIN, IgnoreGroupId(fc.proxyGid))];
    }
    assert r == commands + [if seen.outputChain then FlushChain(OUTPUT_CHAIN) else NewChain(OUTPUT_CHAIN)]
                + Appends(OUTPUT_CHAIN, OwnerRules(fc));
    r := r + [Append(OUTPUT_CHAIN, IGNORE_LOOPBACK)];
    r := AddRulesForIgnoredPorts(fc.outboundPortsToIgnore, OUTPUT_CHAIN, r);
    r := r + [Append(OUTPUT_CHAIN, RedirectTo(fc.proxyOutgoingPort, "redirect-all-outgoing-to-proxy-port"))];
    if !JumpPattern(existingRules, OUTPUT, OUTPUT_CHAIN) {
      r := r + [Append(OUTPUT, OUTPUT_JUMP)];
    }
  }

  // ---- What a configuration asks for -----------------------------------------------------

  lemma {:induction false} ModesByName()
    ensures REDIRECT_ALL_MODE == "redirect-all" && REDIRECT_LISTED_MODE == "redirect-listed"
  {}

  /** Where an inbound packet is to be redirected, if anywhere. */
  ghost function InboundVerdict(fc: FirewallConfiguration, p: Packet): Option<int> {
    if p.protocol == Tcp && IgnoresPort(fc.inboundPortsToIgnore, p.dport) then None
    else if exists s <- fc.subnetsToIgnore :: InSubnet(s, p.bits, p.src) then None
    else if p.protocol != Tcp then None
    else if fc.mode == "redirect-all" then Some(fc.proxyInboundPort)
    else if fc.mode == "redirect-listed" && p.dport in fc.portsToRedirectInbound then Some(fc.proxyInboundPort)
    else None
  }

  /** Where an outbound packet is to be redirected, if anywhere. */
  ghost function OutboundVerdict(fc: FirewallConfiguration, p: Packet): Option<int> {
    if fc.proxyUid > 0 && p.uid == Some(fc.proxyUid) then None
    else if fc.proxyGid > 0 && p.gid == Some(fc.proxyGid) then None
    else if p.outIface == "lo" then None
    else if p.protocol == Tcp && IgnoresPort(fc.outboundPortsToIgnore, p.dport) then None
    else if p.protocol == Tcp then Some(fc.proxyOutgoingPort)
    else None
  }

  /** The redirection a decision amounts to. */
  function Redirection(d: Decision): Option<int> {
    match d
    case Redirected(port) => Some(port)
    case _ => None
  }

  /** A rule of this compiler matches when the one or two matches before its comment do. */
  lemma {:induction false} HitsBeforeComment(sem: Foreigns, r: Rule, p: Packet)
    requires 2 <= |r.matches| <= 3 && r.matches[|r.matches| - 1].Comment?
    ensures HitsAll(sem, r, p) <==>
            Hits(sem, r.matches[0], p) && (|r.matches| == 3 ==> Hits(sem, r.matches[1], p))
  {}

  lemma {:induction false} AnyHit(sem: Foreigns, rules: seq<Rule>, p: Packet)
    ensures (exists r <- rules :: HitsAll(sem, r, p)) <==>
            (exists k :: 0 <= k < |rules| && HitsAll(sem, rules[k], p))
  {}

  lemma {:induction false} TwoMatches(sem: Foreigns, a: Match, b: Match, text: string, p: Packet)
    ensures HitsAll(sem, Rule([a, b, FormatComment(text)], Return), p) <==> Hits(sem, a, p) && Hits(sem, b, p)
  {
    HitsBeforeComment(sem, Rule([a, b, FormatComment(text)], Return), p);
  }

  lemma {:induction false} DportsHit(sem: Foreigns, dports: string, p: Packet)
    ensures Hits(sem, MultiportDports(dports), p) <==> p.protocol != OtherProtocol && TextCovers(dports, p.dport)
  {}

  lemma {:induction false} IgnorePortsHit(sem: Foreigns, destinations: seq<string>, p: Packet)
    ensures HitsAll(sem, IgnorePorts(destinations), p) <==>
            p.protocol == Tcp && TextCovers(Join(destinations, ','), p.dport)
  {
    var dports := Join(destinations, ',');
    TwoMatches(sem, ProtoTcp, MultiportDports(dports), "ignore-port-" + dports, p);
    DportsHit(sem, dports, p);
  }

  lemma {:induction false} IgnorePortsHits(sem: Foreigns, ports: seq<string>, k: nat, p: Packet)
    requires k < |Chunks(ports)| && AllValid(Chunks(ports)[k])
    ensures HitsAll(sem, IgnorePortsRules(ports)[k], p) <==>
            p.protocol == Tcp && TextCovers(Join(Destinations(Chunks(ports)[k]), ','), p.dport)
  {
    assert IgnorePortsRules(ports)[k] == IgnorePorts(Destinations(Chunks(ports)[k]));
    IgnorePortsHit(sem, Destinations(Chunks(ports)[k]), p);
  }

  lemma {:induction false} WalkIgnorePorts(
    sem: Foreigns, t: Table, ports: seq<string>, p: Packet, depth: nat)
    ensures Walk(sem, t, IgnorePortsRules(ports), p, depth) ==
            if p.protocol == Tcp && IgnoresPort(ports, p.dport) then Returned else RanOff
  {
    var rules, chunks := IgnorePortsRules(ports), Chunks(ports);
    PackingCovers(ports, p.dport);
    WalkUniform(sem, t, rules, Return, p, depth);
    AnyHit(sem, rules, p);
    if k :| 0 <= k < |rules| && HitsAll(sem, rules[k], p) {
      IgnorePortsHits(sem, ports, k, p);
      assert chunks[k] in chunks;
    } else if p.protocol == Tcp && IgnoresPort(ports, p.dport) {
      var c :| c in chunks && TextCovers(Join(Destinations(c), ','), p.dport);
      var k :| 0 <= k < |chunks| && chunks[k] == c;
      IgnorePortsHits(sem, ports, k, p);
    }
  }

  lemma {:induction false} WalkIgnoreSubnets(
    sem: Foreigns, t: Table, subnets: seq<Subnet>, p: Packet, depth: nat)
    ensures Walk(sem, t, IgnoreSubnetsRules(subnets), p, depth) ==
            if exists s <- subnets :: InSubnet(s, p.bits, p.src) then Returned else RanOff
  {
    var rules := IgnoreSubnetsRules(subnets);
    forall k | 0 <= k < |rules|
      ensures HitsAll(sem, rules[k], p) <==> InSubnet(subnets[k], p.bits, p.src)
    {
      HitsBeforeComment(sem, rules[k], p);
    }
    AnyHit(sem, rules, p);
    assert (exists s <- subnets :: InSubnet(s, p.bits, p.src)) <==>
      (exists k :: 0 <= k < |subnets| && InSubnet(subnets[k], p.bits, p.src));
    WalkUniform(sem, t, rules, Return, p, depth);
  }

  lemma {:induction false} WalkRedirect(
    sem: Foreigns, t: Table, fc: FirewallConfiguration, p: Packet, depth: nat)
    ensures Walk(sem, t, RedirectRules(fc), p, depth) ==
            if p.protocol == Tcp && (fc.mode == REDIRECT_ALL_MODE
               || (fc.mode == REDIRECT_LISTED_MODE && p.dport in fc.portsToRedirectInbound))
            then Redirected(fc.proxyInboundPort) else RanOff
  {
    var rules, ports := RedirectRules(fc), fc.portsToRedirectInbound;
    forall k | 0 <= k < |rules|
      ensures HitsAll(sem, rules[k], p) <==>
                p.protocol == Tcp && (fc.mode == REDIRECT_ALL_MODE || p.dport == ports[k])
    {
      HitsBeforeComment(sem, rules[k], p);
    }
    AnyHit(sem, rules, p);
    WalkUniform(sem, t, rules, Redirect(fc.proxyInboundPort), p, depth);
  }

  /** The inbound chain means what the configuration asks for, on every packet; and it never
      ends a packet's traversal except by a redirection. */
  lemma {:induction false} InboundMeaning(
    sem: Foreigns, t: Table, fc: FirewallConfiguration, p: Packet, depth: nat)
    ensures Redirection(Walk(sem, t, InboundRules(fc), p, depth)) == InboundVerdict(fc, p)
    ensures !Walk(sem, t, InboundRules(fc), p, depth).Decided?
  {
    var ports, subnets := IgnorePortsRules(fc.inboundPortsToIgnore), IgnoreSubnetsRules(fc.subnetsToIgnore);
    WalkConcat(sem, t, ports + subnets, RedirectRules(fc), p, depth);
    WalkConcat(sem, t, ports, subnets, p, depth);
    WalkIgnorePorts(sem, t, fc.inboundPortsToIgnore, p, depth);
    WalkIgnoreSubnets(sem, t, fc.subnetsToIgnore, p, depth);
    WalkRedirect(sem, t, fc, p, depth);
    ModesByName();
  }

  lemma {:induction false} WalkOwner(
    sem: Foreigns, t: Table, fc: FirewallConfiguration, p: Packet, depth: nat)
    ensures Walk(sem, t, OwnerRules(fc), p, depth) ==
            if (fc.proxyUid > 0 && p.uid == Some(fc.proxyUid)) || (fc.proxyGid > 0 && p.gid == Some(fc.proxyGid))
            then Returned else RanOff
  {
    var rules := OwnerRules(fc);
    forall r <- rules
      ensures r.target == Return && |r.matches| == 2
      ensures HitsAll(sem, r, p) <==> Hits(sem, r.matches[0], p)
    {
      assert Hits(sem, r.matches[1], p);
    }
    WalkUniform(sem, t, rules, Return, p, depth);
    assert fc.proxyUid > 0 ==> rules[0].matches[0] == OwnerUid(fc.proxyUid) && rules[0] in rules;
    assert fc.proxyGid > 0 ==>
      rules[|rules| - 1].matches[0] == OwnerGid(fc.proxyGid) && rules[|rules| - 1] in rules;
  }

  /** The outbound chain means what the configuration asks for, on every packet. */
  lemma {:induction false} OutboundMeaning(
    sem: Foreigns, t: Table, fc: FirewallConfiguration, p: Packet, depth: nat)
    ensures Redirection(Walk(sem, t, OutboundRules(fc), p, depth)) == OutboundVerdict(fc, p)
    ensures !Walk(sem, t, OutboundRules(fc), p, depth).Decided?
  {
    var ports := IgnorePortsRules(fc.outboundPortsToIgnore);
    var last := RedirectTo(fc.proxyOutgoingPort, "redirect-all-outgoing-to-proxy-port");
    WalkConcat(sem, t, OwnerRules(fc) + [IGNORE_LOOPBACK] + ports, [last], p, depth);
    WalkConcat(sem, t, OwnerRules(fc) + [IGNORE_LOOPBACK], ports, p, depth);
    WalkConcat(sem, t, OwnerRules(fc), [IGNORE_LOOPBACK], p, depth);
    WalkOwner(sem, t, fc, p, depth);
    WalkUniform(sem, t, [IGNORE_LOOPBACK], Return, p, depth);
    HitsBeforeComment(sem, IGNORE_LOOPBACK, p);
    AnyHit(sem, [IGNORE_LOOPBACK], p);
    WalkIgnorePorts(sem, t, fc.outboundPortsToIgnore, p, depth);
    WalkUniform(sem, t, [last], Redirect(fc.proxyOutgoingPort), p, depth);
    HitsBeforeComment(sem, last, p);
    AnyHit(sem, [last], p);
  }
}

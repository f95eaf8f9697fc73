/** The rules that pkg/iptables/iptables.go compiles print as whole lines, so a configured table can
    be read back as exactly as the table before. */
module Printability {
  import opened Text
  import opened PortRanges
  import opened Multiport
  import opened NatTable
  import opened SavedTable
  import opened Firewall
  import opened ConfigureFirewall

  lemma {:induction false} OwnTextsOneLine()
    ensures OneLine("proxy-init/")
    ensures OneLine("ignore-proxy-user-id") && OneLine("ignore-proxy-group-id") && OneLine("ignore-loopback")
    ensures OneLine("redirect-all-outgoing-to-proxy-port") && OneLine("redirect-all-incoming-to-proxy-port")
    ensures OneLine("install-proxy-init-prerouting") && OneLine("install-proxy-init-output")
    ensures OneLine("redirect-port-") && OneLine("-to-proxy-port")
    ensures IsName(REDIRECT_CHAIN) && IsName(OUTPUT_CHAIN)
  {
    IgnoreTextsOneLine();
    RedirectTextsOneLine();
    InstallTextsOneLine();
  }

  lemma {:induction false} IgnoreTextsOneLine()
    ensures OneLine("proxy-init/")
    ensures OneLine("ignore-proxy-user-id") && OneLine("ignore-proxy-group-id") && OneLine("ignore-loopback")
  {}

  lemma {:induction false} RedirectTextsOneLine()
    ensures OneLine("redirect-all-outgoing-to-proxy-port") && OneLine("redirect-all-incoming-to-proxy-port")
    ensures OneLine("redirect-port-") && OneLine("-to-proxy-port")
  {}

  lemma {:induction false} InstallTextsOneLine()
    ensures OneLine("install-proxy-init-prerouting") && OneLine("install-proxy-init-output")
    ensures IsName(REDIRECT_CHAIN) && IsName(OUTPUT_CHAIN)
  {}

  lemma {:induction false} CommentedPrintable(matches: seq<Match>, text: string, target: Target)
    requires OneLine("proxy-init/") && OneLine(text)
    requires forall m <- matches :: MatchPrintable(m)
    requires target.Return? || target.Redirect? || (target.Jump? && IsName(target.chain))
    ensures RulePrintable(Rule(matches + [FormatComment(text)], target))
  {}

  ghost predicate AllPrintable(rules: seq<Rule>) { forall r <- rules :: RulePrintable(r) }

  lemma {:induction false} DestinationsOneLine(chunk: seq<PortRange>)
    requires AllValid(chunk)
    ensures OneLine(Join(Destinations(chunk), ','))
  {
    forall k | 0 <= k < |chunk| ensures OneLine(AsDestination(chunk[k])) {
      assert !IsDigit('\n');
    }
    JoinOneLine(Destinations(chunk));
  }

  lemma {:induction false} JoinOneLine(pieces: seq<string>)
    requires forall s <- pieces :: OneLine(s)
    ensures OneLine(Join(pieces, ','))
  {
    if pieces != [] {
      assert pieces[0] in pieces;
      JoinOneLine(pieces[1..]);
    }
  }

  lemma {:induction false} IgnorePortsPrintable(ports: seq<string>)
    ensures AllPrintable(IgnorePortsRules(ports))
  {
    var rules, chunks := IgnorePortsRules(ports), Chunks(ports);
    ChunksKeepValid(ports);
    forall k | 0 <= k < |rules| ensures RulePrintable(rules[k]) {
      assert chunks[k] in chunks;
      DestinationsOneLine(chunks[k]);
    }
  }

  lemma {:induction false} IgnoreSubnetsPrintable(subnets: seq<Subnet>)
    requires forall s <- subnets :: OneLine(s.text)
    ensures AllPrintable(IgnoreSubnetsRules(subnets))
  {
    forall k | 0 <= k < |subnets| ensures RulePrintable(IgnoreSubnetsRules(subnets)[k]) {
      assert subnets[k] in subnets;
    }
  }

  lemma {:induction false} RedirectPrintable(fc: FirewallConfiguration)
    ensures AllPrintable(RedirectRules(fc))
  {
    OwnTextsOneLine();
    var rules, ports := RedirectRules(fc), fc.portsToRedirectInbound;
    if fc.mode == REDIRECT_ALL_MODE {
      RedirectToPrintable(fc.proxyInboundPort, "redirect-all-incoming-to-proxy-port");
    } else if fc.mode == REDIRECT_LISTED_MODE {
      forall k | 0 <= k < |rules| ensures RulePrintable(rules[k]) {
        RedirectPortPrintable(ports[k], fc.proxyInboundPort);
      }
    }
  }

  lemma {:induction false} RedirectToPrintable(toPort: int, text: string)
    requires OneLine("proxy-init/") && OneLine(text)
    ensures RulePrintable(RedirectTo(toPort, text))
  {}

  lemma {:induction false} RedirectPortPrintable(port: int, toPort: int)
    ensures RulePrintable(RedirectPort(port, toPort))
  {
    OwnTextsOneLine();
    NumeralOneLine(port);
    var text := "redirect-port-" + IntText(port) + "-to-proxy-port";
    CommentedPrintable([ProtoTcp, DestinationPort(port)], text, Redirect(toPort));
    assert RedirectPort(port, toPort).matches == [ProtoTcp, DestinationPort(port)] + [FormatComment(text)];
  }

  lemma {:induction false} PrintableConcat(a: seq<Rule>, b: seq<Rule>)
    requires AllPrintable(a) && AllPrintable(b)
    ensures AllPrintable(a + b)
  {}

  lemma {:induction false} InboundPrintable(fc: FirewallConfiguration)
    requires Accepts(fc)
    ensures AllPrintable(InboundRules(fc))
  {
    IgnorePortsPrintable(fc.inboundPortsToIgnore);
    IgnoreSubnetsPrintable(fc.subnetsToIgnore);
    RedirectPrintable(fc);
    PrintableConcat(IgnorePortsRules(fc.inboundPortsToIgnore), IgnoreSubnetsRules(fc.subnetsToIgnore));
    PrintableConcat(
      IgnorePortsRules(fc.inboundPortsToIgnore) + IgnoreSubnetsRules(fc.subnetsToIgnore), RedirectRules(fc));
  }

  lemma {:induction false} LiteralsPrintable(fc: FirewallConfiguration)
    ensures AllPrintable(OwnerRules(fc)) && RulePrintable(IGNORE_LOOPBACK)
    ensures RulePrintable(RedirectTo(fc.proxyOutgoingPort, "redirect-all-outgoing-to-proxy-port"))
  {
    OwnTextsOneLine();
    var user, group, loopback := "ignore-proxy-user-id", "ignore-proxy-group-id", "ignore-loopback";
    if fc.proxyUid > 0 {
      CommentedPrintable([OwnerUid(fc.proxyUid)], user, Return);
      assert IgnoreUserId(fc.proxyUid).matches == [OwnerUid(fc.proxyUid)] + [FormatComment(user)];
    }
    if fc.proxyGid > 0 {
      CommentedPrintable([OwnerGid(fc.proxyGid)], group, Return);
      assert IgnoreGroupId(fc.proxyGid).matches == [OwnerGid(fc.proxyGid)] + [FormatComment(group)];
    }
    assert OneLine("lo");
    CommentedPrintable([OutIface("lo")], loopback, Return);
    assert IGNORE_LOOPBACK.matches == [OutIface("lo")] + [FormatComment(loopback)];
    RedirectToPrintable(fc.proxyOutgoingPort, "redirect-all-outgoing-to-proxy-port");
  }

  lemma {:induction false} OutboundPrintable(fc: FirewallConfiguration)
    ensures AllPrintable(OutboundRules(fc))
  {
    var last := RedirectTo(fc.proxyOutgoingPort, "redirect-all-outgoing-to-proxy-port");
    LiteralsPrintable(fc);
    IgnorePortsPrintable(fc.outboundPortsToIgnore);
    PrintableConcat(OwnerRules(fc), [IGNORE_LOOPBACK]);
    PrintableConcat(OwnerRules(fc) + [IGNORE_LOOPBACK], IgnorePortsRules(fc.outboundPortsToIgnore));
    PrintableConcat(OwnerRules(fc) + [IGNORE_LOOPBACK] + IgnorePortsRules(fc.outboundPortsToIgnore), [last]);
  }

  /** Our own jumps are printable and are read as jumps. */
  lemma {:induction false} OwnJumpsAreRead()
    ensures RulePrintable(PREROUTING_JUMP) && ReadsJump([PREROUTING_JUMP], REDIRECT_CHAIN)
    ensures RulePrintable(OUTPUT_JUMP) && ReadsJump([OUTPUT_JUMP], OUTPUT_CHAIN)
  {
    OwnTextsOneLine();
    OwnJumpIsRead(PREROUTING_JUMP, REDIRECT_CHAIN, "install-proxy-init-prerouting");
    OwnJumpIsRead(OUTPUT_JUMP, OUTPUT_CHAIN, "install-proxy-init-output");
  }

  lemma {:induction false} OwnJumpIsRead(jump: Rule, chain: string, text: string)
    requires OneLine("proxy-init/") && OneLine(text) && IsName(chain)
    requires jump == Rule([FormatComment(text)], Jump(chain))
    ensures RulePrintable(jump) && ReadsJump([jump], chain)
  {
    CommentedPrintable([], text, Jump(chain));
    assert [] + [FormatComment(text)] == [FormatComment(text)];
    JumpIsRead(jump, chain);
    assert jump in [jump];
  }

  lemma {:induction false} CompletePrintable(t: Table, h: Half)
    requires HalfValid(h) && h.hook in t && Printable(t)
    requires AllPrintable(h.rules) && RulePrintable(h.jump) && IsName(h.chain)
    ensures Printable(Complete(t, h))
  {}

  /** A configured table can be printed and read back again. */
  lemma {:induction false} InstalledIsReady(t: Table, fc: FirewallConfiguration, preroutingJump: bool, outputJump: bool)
    requires Ready(t) && Accepts(fc)
    ensures Ready(Installed(t, fc, preroutingJump, outputJump))
  {
    var seen := Seen(false, false, preroutingJump, outputJump);
    HalvesValid(fc, seen);
    InboundPrintable(fc);
    OutboundPrintable(fc);
    OwnJumpsAreRead();
    OwnTextsOneLine();
    CompletePrintable(t, Inbound(fc, seen));
    CompletePrintable(Complete(t, Inbound(fc, seen)), Outbound(fc, seen));
  }
}

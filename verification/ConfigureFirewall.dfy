/** pkg/iptables/iptables.go: `ConfigureFirewall`, which changes the kernel's nat table one command
    at a time, and what it leaves behind at the end and at every intermediate command. */
module ConfigureFirewall {
  import opened Text
  import opened PortRanges
  import opened Multiport
  import opened NatTable
  import opened SavedTable
  import opened Firewall

  // ---- The methods -----------------------------------------------------------------------

  /** The nat table as the kernel keeps it, with the order in which chains are listed. */
  class Kernel {
    var chains: Table
    var order: seq<string>

    ghost predicate Valid()
      reads this
    {
      IsOrder(order, chains.Keys)
    }

    /** Runs one command, which either takes full effect or none. */
    method Execute(cmd: Command) returns (ok: bool)
      requires Valid()
      modifies this
      ensures Valid()
      ensures ok == Exec(old(chains), cmd).Some?
      ensures chains == if ok then Exec(old(chains), cmd).value else old(chains)
    {
      var after := Exec(chains, cmd);
      ok := after.Some?;
      if ok {
        if cmd.NewChain? {
          order := order + [cmd.chain];
        } else if cmd.DeleteChain? {
          var i := 0;
          while order[i] != cmd.chain
            invariant 0 <= i < |order|
            invariant cmd.chain in order[i..]
            decreases |order| - i
          {
            i := i + 1;
          }
          order := order[..i] + order[i + 1..];
        }
        chains := after.value;
      }
    }

    method Save() returns (text: string)
      requires Valid()
      ensures forall c <- order :: c in chains
      ensures text == Print(chains, order)
    {
      text := Print(chains, order);
    }

    /** Runs commands until one fails: one the kernel refuses, or one in `faults`, which fail for
        reasons of the environment. `done` commands have taken effect. */
    method ExecuteAll(cmds: seq<Command>, faults: set<nat>) returns (ok: bool, ghost done: nat)
      requires Valid()
      modifies this
      ensures Valid()
      ensures done <= |cmds| && Outcome(chains, true) == ExecAll(old(chains), cmds[..done])
      ensures forall k <- faults :: k >= done
      ensures ok <==> done == |cmds|
      ensures !ok ==> done in faults || Exec(chains, cmds[done]).None?
      ensures faults == {} ==> Outcome(chains, ok) == ExecAll(old(chains), cmds)
    {
      var i := 0;
      ok, done := true, 0;
      while i < |cmds|
        invariant 0 <= i == done <= |cmds| && ok
        invariant Valid()
        invariant Outcome(chains, true) == ExecAll(old(chains), cmds[..i])
        invariant forall k <- faults :: k >= i
      {
        ExecAllNext(old(chains), cmds, i);
        if Exec(chains, cmds[i]).None? {
          ExecAllStops(old(chains), cmds, i);
        }
        ok := i !in faults;
        if ok {
          ok := Execute(cmds[i]);
        }
        if !ok {
          return;
        }
        i := i + 1;
        done := i;
      }
      assert cmds[..|cmds|] == cmds;
    }
  }

  lemma {:induction false} ExecAllStops(t: Table, cmds: seq<Command>, k: nat)
    requires k < |cmds| && ExecAll(t, cmds[..k]).ok && Exec(ExecAll(t, cmds[..k]).table, cmds[k]).None?
    ensures ExecAll(t, cmds) == Outcome(ExecAll(t, cmds[..k]).table, false)
  {
    assert cmds == cmds[..k] + cmds[k..];
    ExecAllConcat(t, cmds[..k], cmds[k..]);
  }

  /** What one run of ConfigureFirewall does, given what it saw of the table. */
  function Configure(t: Table, seen: Seen, fc: FirewallConfiguration): Outcome {
    ExecAll(t, Compile(fc, seen))
  }

  /** ConfigureFirewall with ContinueOnError false. A table that cannot be read ends it before any
      command; otherwise it leaves the table that `done` commands of its compilation leave, all of
      them unless one fails. */
  method RunConfigureFirewall(kernel: Kernel, fc: FirewallConfiguration, saveFails: bool, faults: set<nat>)
    returns (ok: bool, ghost done: nat)
    requires kernel.Valid()
    modifies kernel
    ensures kernel.Valid()
    ensures saveFails ==> !ok && done == 0 && kernel.chains == old(kernel.chains)
    ensures !saveFails ==>
              var t, cmds := old(kernel.chains), Compile(fc, Scan(Print(old(kernel.chains), old(kernel.order))));
              && done <= |cmds| && Outcome(kernel.chains, true) == ExecAll(t, cmds[..done])
              && (ok <==> done == |cmds|)
              && (!ok ==> done in faults || Exec(kernel.chains, cmds[done]).None?)
    ensures !saveFails && faults == {} ==>
              Outcome(kernel.chains, ok) ==
              Configure(old(kernel.chains), Scan(Print(old(kernel.chains), old(kernel.order))), fc)
    ensures !saveFails && faults == {} && Ready(old(kernel.chains)) ==>
              var seen := Scan(Print(old(kernel.chains), old(kernel.order)));
              && (ok <==> Accepts(fc))
              && (ok ==> kernel.chains == Installed(old(kernel.chains), fc, seen.preroutingJump, seen.outputJump))
              && (ok ==> ChangedByName(old(kernel.chains), seen, kernel.chains))
  {
    if saveFails {
      return false, 0;
    }
    if Ready(kernel.chains) {
      ScanFaithful(kernel.chains, kernel.order);
      ConfigureSucceedsExactly(kernel.chains, Scan(Print(kernel.chains, kernel.order)), fc);
      if Accepts(fc) {
        ConfiguredByName(kernel.chains, Scan(Print(kernel.chains, kernel.order)), fc);
      }
    }
    var existingRules := kernel.Save();
    var commands := CommandsFor(fc, existingRules);
    ok, done := kernel.ExecuteAll(commands, faults);
  }

  method CommandsFor(fc: FirewallConfiguration, existingRules: string) returns (commands: seq<Command>)
    ensures commands == Compile(fc, Scan(existingRules))
  {
    commands := [];
    commands := AddIncomingTrafficRules(fc, existingRules, commands);
    EmptyFirst(Inbound(fc, Scan(existingRules)).Commands());
    commands := AddOutgoingTrafficRules(fc, existingRules, commands);
  }

  lemma {:induction false} EmptyFirst(cmds: seq<Command>)
    ensures [] + cmds == cmds
  {}

  // ---- One hook and its chain ------------------------------------------------------------

  ghost predicate Flat(rules: seq<Rule>) { forall r <- rules :: !r.target.Jump? }

  ghost predicate HalfValid(h: Half) {
    && h.hook in BUILTIN && h.chain !in BUILTIN
    && h.jump.target == Jump(h.chain)
    && (forall m <- h.jump.matches :: m.Comment?)
    && Flat(h.rules)
  }

  /** The table after the first `k` commands of a half. */
  function After(t: Table, h: Half, k: nat): Table
    requires h.hook in t
  {
    if k == 0 then t
    else if k <= |h.rules| + 1 then t[h.chain := h.rules[..k - 1]]
    else t[h.chain := h.rules][h.hook := t[h.hook] + [h.jump]]
  }

  /** The table after all of them. */
  function Complete(t: Table, h: Half): Table
    requires h.hook in t
  {
    t[h.chain := h.rules][h.hook := t[h.hook] + (if h.jumpSeen then [] else [h.jump])]
  }

  lemma {:induction false} PartsFlat(ports: seq<string>, subnets: seq<Subnet>, fc: FirewallConfiguration)
    ensures Flat(IgnorePortsRules(ports)) && Flat(IgnoreSubnetsRules(subnets)) && Flat(RedirectRules(fc))
  {}

  lemma {:induction false} FlatConcat(a: seq<Rule>, b: seq<Rule>)
    requires Flat(a) && Flat(b)
    ensures Flat(a + b)
  {}

  lemma {:induction false} InboundFlat(fc: FirewallConfiguration)
    ensures Flat(InboundRules(fc))
  {
    PartsFlat(fc.inboundPortsToIgnore, fc.subnetsToIgnore, fc);
    FlatConcat(IgnorePortsRules(fc.inboundPortsToIgnore), IgnoreSubnetsRules(fc.subnetsToIgnore));
    FlatConcat(IgnorePortsRules(fc.inboundPortsToIgnore) + IgnoreSubnetsRules(fc.subnetsToIgnore), RedirectRules(fc));
  }

  lemma {:induction false} OutboundFlat(fc: FirewallConfiguration)
    ensures Flat(OutboundRules(fc))
  {
    PartsFlat(fc.outboundPortsToIgnore, [], fc);
    FlatConcat(OwnerRules(fc), [IGNORE_LOOPBACK]);
    FlatConcat(OwnerRules(fc) + [IGNORE_LOOPBACK], IgnorePortsRules(fc.outboundPortsToIgnore));
    FlatConcat(OwnerRules(fc) + [IGNORE_LOOPBACK] + IgnorePortsRules(fc.outboundPortsToIgnore),
               [RedirectTo(fc.proxyOutgoingPort, "redirect-all-outgoing-to-proxy-port")]);
  }

  lemma {:induction false} OwnChainsNotBuiltin()
    ensures REDIRECT_CHAIN !in BUILTIN && OUTPUT_CHAIN !in BUILTIN
  {}

  lemma {:induction false} HalvesValid(fc: FirewallConfiguration, seen: Seen)
    ensures HalfValid(Inbound(fc, seen)) && HalfValid(Outbound(fc, seen))
  {
    InboundFlat(fc);
    OutboundFlat(fc);
    OwnChainsNotBuiltin();
  }

  /** A rule iptables accepts in any table. */
  predicate FlatOk(r: Rule) { RuleOk(map[], r) }

  /** The first `k` commands run if and only if the rules among them are acceptable, and then
      leave exactly the table `After` says. */
  lemma {:induction false} RunHalf(t: Table, h: Half, k: nat)
    requires HalfValid(h) && h.hook in t && (h.chainSeen <==> h.chain in t)
    requires k <= |h.Commands()|
    ensures ExecAll(t, h.Commands()[..k]).ok <==> forall j :: 0 <= j < |h.rules| && j < k - 1 ==> FlatOk(h.rules[j])
    ensures ExecAll(t, h.Commands()[..k]).ok ==> ExecAll(t, h.Commands()[..k]).table == After(t, h, k)
  {
    if k == 0 {
      assert h.Commands()[..0] == [];
    } else {
      RunHalf(t, h, k - 1);
      ExecAllNext(t, h.Commands(), k - 1);
      if ExecAll(t, h.Commands()[..k - 1]).ok {
        HalfStep(t, h, k - 1);
      }
    }
  }

  lemma {:induction false} HalfStep(t: Table, h: Half, k: nat)
    requires HalfValid(h) && h.hook in t && (h.chainSeen <==> h.chain in t)
    requires k < |h.Commands()|
    ensures Exec(After(t, h, k), h.Commands()[k]).Some? <==>
            (1 <= k <= |h.rules| ==> FlatOk(h.rules[k - 1]))
    ensures Exec(After(t, h, k), h.Commands()[k]).Some? ==>
              Exec(After(t, h, k), h.Commands()[k]).value == After(t, h, k + 1)
  {
    var before := After(t, h, k);
    if 1 <= k <= |h.rules| {
      var r := h.rules[k - 1];
      assert r in h.rules;
      assert RuleOk(before, r) <==> FlatOk(r);
      assert h.rules[..k] == h.rules[..k - 1] + [r];
      assert before[h.chain] == h.rules[..k - 1];
    } else if k == 0 {
      assert h.rules[..0] == [];
    } else {
      assert h.rules[..k - 1] == h.rules;
      assert before[h.chain] == h.rules;
      assert RuleOk(before, h.jump);
    }
  }

  lemma {:induction false} RunWholeHalf(t: Table, h: Half)
    requires HalfValid(h) && h.hook in t && (h.chainSeen <==> h.chain in t)
    ensures ExecAll(t, h.Commands()).ok <==> forall r <- h.rules :: FlatOk(r)
    ensures ExecAll(t, h.Commands()).ok ==> ExecAll(t, h.Commands()).table == Complete(t, h)
    ensures After(t, h, |h.Commands()|) == Complete(t, h)
  {
    RunHalf(t, h, |h.Commands()|);
    assert h.Commands()[..|h.Commands()|] == h.Commands();
    assert h.rules[..|h.rules|] == h.rules;
    assert t[h.hook] + [] == t[h.hook];
  }

  /** Two halves that share neither hook nor chain. */
  ghost predicate Independent(x: Half, y: Half) {
    HalfValid(x) && HalfValid(y) && x.hook != y.hook && x.chain != y.chain
  }

  lemma {:induction false} RunBothHalves(t: Table, x: Half, y: Half)
    requires Independent(x, y) && x.hook in t && y.hook in t
    requires (x.chainSeen <==> x.chain in t) && (y.chainSeen <==> y.chain in t)
    ensures ExecAll(t, x.Commands() + y.Commands()).ok <==>
            (forall r <- x.rules :: FlatOk(r)) && (forall r <- y.rules :: FlatOk(r))
    ensures ExecAll(t, x.Commands() + y.Commands()).ok ==>
              ExecAll(t, x.Commands() + y.Commands()).table == Complete(Complete(t, x), y)
  {
    RunWholeHalf(t, x);
    ExecAllConcat(t, x.Commands(), y.Commands());
    RunWholeHalf(Complete(t, x), y);
  }

  // ---- When every command succeeds -------------------------------------------------------

  predicate PortListOk(ports: seq<string>) { ports == [] || ValidEntries(ports) != [] }

  /** What a caller can check beforehand: ignore lists are empty or hold a valid entry, ports
      and prefix lengths are in range. */
  predicate Accepts(fc: FirewallConfiguration) {
    && PortListOk(fc.inboundPortsToIgnore) && PortListOk(fc.outboundPortsToIgnore)
    && (forall s <- fc.subnetsToIgnore :: s.prefixLen <= s.bits && OneLine(s.text))
    && (fc.mode == REDIRECT_ALL_MODE ==> IsValidPort(fc.proxyInboundPort))
    && (fc.mode == REDIRECT_LISTED_MODE ==>
          forall p <- fc.portsToRedirectInbound :: IsValidPort(p) && IsValidPort(fc.proxyInboundPort))
    && IsValidPort(fc.proxyOutgoingPort)
  }

  /** A rule of this compiler is acceptable when its target and the one or two matches before
      its comment are. */
  lemma {:induction false} OkBeforeComment(r: Rule)
    requires 2 <= |r.matches| <= 3 && r.matches[|r.matches| - 1].Comment?
    ensures FlatOk(r) <==> && TargetOk(map[], r.target)
                           && MatchOk(r.matches[0]) && (|r.matches| == 3 ==> MatchOk(r.matches[1]))
  {}

  lemma {:induction false} IgnorePortsRuleOk(chunk: seq<PortRange>)
    requires AllValid(chunk) && Weight(chunk) <= MULTIPORT_LIMIT
    ensures FlatOk(IgnorePorts(Destinations(chunk))) <==> chunk != []
  {
    ReadDportsPrinted(chunk);
    if chunk != [] { WeightIsReferences(chunk); }
    OkBeforeComment(IgnorePorts(Destinations(chunk)));
  }

  lemma {:induction false} IgnorePortsRuleOkAt(ports: seq<string>, k: nat)
    requires k < |Chunks(ports)|
    ensures FlatOk(IgnorePortsRules(ports)[k]) <==> Chunks(ports)[k] != []
  {
    var chunk := Chunks(ports)[k];
    ChunksKeepValid(ports);
    PackingConserves(ports);
    assert chunk in Chunks(ports);
    IgnorePortsRuleOk(chunk);
    assert IgnorePortsRules(ports)[k] == IgnorePorts(Destinations(chunk));
  }

  lemma {:induction false} NoEmptyChunk(ports: seq<string>)
    ensures PortListOk(ports) <==> [] !in Chunks(ports)
  {
    PackingConserves(ports);
    if ports != [] && ValidEntries(ports) == [] {
      assert Chunks(ports) == [[]];
    }
  }

  lemma {:induction false} IgnorePortsOk(ports: seq<string>)
    ensures (forall r <- IgnorePortsRules(ports) :: FlatOk(r)) <==> PortListOk(ports)
  {
    var rules, chunks := IgnorePortsRules(ports), Chunks(ports);
    NoEmptyChunk(ports);
    forall k | 0 <= k < |rules| ensures FlatOk(rules[k]) <==> chunks[k] != [] {
      IgnorePortsRuleOkAt(ports, k);
    }
    OkByIndex(rules);
    assert [] in chunks <==> exists k :: 0 <= k < |chunks| && chunks[k] == [];
  }

  lemma {:induction false} OkByIndex(rules: seq<Rule>)
    ensures (forall r <- rules :: FlatOk(r)) <==> (forall k :: 0 <= k < |rules| ==> FlatOk(rules[k]))
  {
    assert forall k :: 0 <= k < |rules| ==> rules[k] in rules;
  }

  lemma {:induction false} IgnoreSubnetsOk(subnets: seq<Subnet>)
    ensures (forall r <- IgnoreSubnetsRules(subnets) :: FlatOk(r)) <==>
            (forall s <- subnets :: s.prefixLen <= s.bits && OneLine(s.text))
  {
    var rules := IgnoreSubnetsRules(subnets);
    forall k | 0 <= k < |subnets|
      ensures FlatOk(rules[k]) <==> subnets[k].prefixLen <= subnets[k].bits && OneLine(subnets[k].text)
    {
      OkBeforeComment(rules[k]);
    }
    assert forall k :: 0 <= k < |subnets| ==> rules[k] in rules;
  }

  lemma {:induction false} RedirectOk(fc: FirewallConfiguration)
    ensures (forall r <- RedirectRules(fc) :: FlatOk(r)) <==>
            && (fc.mode == REDIRECT_ALL_MODE ==> IsValidPort(fc.proxyInboundPort))
            && (fc.mode == REDIRECT_LISTED_MODE ==>
                  forall p <- fc.portsToRedirectInbound :: IsValidPort(p) && IsValidPort(fc.proxyInboundPort))
  {
    var rules, ports, ok := RedirectRules(fc), fc.portsToRedirectInbound, IsValidPort(fc.proxyInboundPort);
    if fc.mode == REDIRECT_ALL_MODE {
      OkBeforeComment(rules[0]);
      assert forall r <- rules :: r == rules[0];
    } else if fc.mode == REDIRECT_LISTED_MODE {
      forall k | 0 <= k < |rules| ensures FlatOk(rules[k]) <==> IsValidPort(ports[k]) && ok {
        OkBeforeComment(rules[k]);
      }
      assert forall k :: 0 <= k < |rules| ==> rules[k] in rules && ports[k] in ports;
    }
  }

  ghost predicate AllOk(rules: seq<Rule>) { forall r <- rules :: FlatOk(r) }

  lemma {:induction false} OkConcat(a: seq<Rule>, b: seq<Rule>)
    ensures AllOk(a + b) <==> AllOk(a) && AllOk(b)
  {}

  lemma {:induction false} OutboundEndsOk(fc: FirewallConfiguration)
    ensures AllOk(OwnerRules(fc)) && AllOk([IGNORE_LOOPBACK])
    ensures AllOk([RedirectTo(fc.proxyOutgoingPort, "redirect-all-outgoing-to-proxy-port")]) <==>
            IsValidPort(fc.proxyOutgoingPort)
  {
    forall r <- OwnerRules(fc) + [IGNORE_LOOPBACK] ensures FlatOk(r) {
      OkBeforeComment(r);
    }
    OkConcat(OwnerRules(fc), [IGNORE_LOOPBACK]);
    var last := RedirectTo(fc.proxyOutgoingPort, "redirect-all-outgoing-to-proxy-port");
    OkBeforeComment(last);
    assert last in [last];
  }

  lemma {:induction false} RulesOk(fc: FirewallConfiguration)
    ensures Accepts(fc) <==> AllOk(InboundRules(fc)) && AllOk(OutboundRules(fc))
  {
    var inPorts, outPorts := IgnorePortsRules(fc.inboundPortsToIgnore), IgnorePortsRules(fc.outboundPortsToIgnore);
    var subnets, owner := IgnoreSubnetsRules(fc.subnetsToIgnore), OwnerRules(fc);
    IgnorePortsOk(fc.inboundPortsToIgnore);
    IgnorePortsOk(fc.outboundPortsToIgnore);
    IgnoreSubnetsOk(fc.subnetsToIgnore);
    RedirectOk(fc);
    OkConcat(inPorts, subnets);
    OkConcat(inPorts + subnets, RedirectRules(fc));
    OutboundEndsOk(fc);
    OkConcat(owner, [IGNORE_LOOPBACK]);
    OkConcat(owner + [IGNORE_LOOPBACK], outPorts);
    OkConcat(owner + [IGNORE_LOOPBACK] + outPorts,
             [RedirectTo(fc.proxyOutgoingPort, "redirect-all-outgoing-to-proxy-port")]);
  }

  // ---- The table a configuration leaves --------------------------------------------------

  /** A nat table iptables-save can print, with both hooks. */
  ghost predicate Ready(t: Table) {
    PREROUTING in t && OUTPUT in t && Printable(t)
  }

  /** The table after both halves: each chain holds the configuration's rules, each hook has its
      jump, appended unless it was seen, and nothing else has changed. */
  function Installed(t: Table, fc: FirewallConfiguration, preroutingJump: bool, outputJump: bool): Table
    requires PREROUTING in t && OUTPUT in t
  {
    var seen := Seen(false, false, preroutingJump, outputJump);
    Complete(Complete(t, Inbound(fc, seen)), Outbound(fc, seen))
  }

  /** What a reading of the saved table reports: chains exactly, and jumps exactly when some rule
      of the hook reads as one. */
  ghost predicate Sees(t: Table, seen: Seen) {
    && PREROUTING in t && OUTPUT in t
    && (seen.redirectChain <==> REDIRECT_CHAIN in t)
    && (seen.outputChain <==> OUTPUT_CHAIN in t)
    && (seen.preroutingJump <==> ReadsJump(t[PREROUTING], REDIRECT_CHAIN))
    && (seen.outputJump <==> ReadsJump(t[OUTPUT], OUTPUT_CHAIN))
  }

  /** Reading the printed form of any table back reports just that. */
  lemma {:induction false} ScanFaithful(t: Table, order: seq<string>)
    requires Ready(t) && IsOrder(order, t.Keys)
    ensures Sees(t, Scan(Print(t, order)))
  {
    ChainPatternFaithful(t, order, REDIRECT_CHAIN);
    ChainPatternFaithful(t, order, OUTPUT_CHAIN);
    JumpPatternByRule(t, order, PREROUTING, REDIRECT_CHAIN);
    JumpPatternByRule(t, order, OUTPUT, OUTPUT_CHAIN);
  }

  /** From any table, whatever our chains held before, all commands succeed exactly when the
      configuration is acceptable; and then both chains hold exactly its rules. */
  lemma {:induction false} ConfigureSucceedsExactly(t: Table, seen: Seen, fc: FirewallConfiguration)
    requires Sees(t, seen)
    ensures Configure(t, seen, fc).ok <==> Accepts(fc)
    ensures Accepts(fc) ==>
              Configure(t, seen, fc).table == Installed(t, fc, seen.preroutingJump, seen.outputJump)
  {
    HalvesValid(fc, seen);
    RulesOk(fc);
    RunBothHalves(t, Inbound(fc, seen), Outbound(fc, seen));
  }

  /** What a configuration changes, by name: where no jump was seen, PREROUTING ends with a jump to
      PROXY_INIT_REDIRECT, and OUTPUT with one to PROXY_INIT_OUTPUT; these two chains are there, and no
      other chain has changed. */
  ghost predicate ChangedByName(t: Table, seen: Seen, t': Table) {
    && "PREROUTING" in t && "OUTPUT" in t
    && t'.Keys == t.Keys + {"PROXY_INIT_REDIRECT", "PROXY_INIT_OUTPUT"}
    && t'["PREROUTING"] == t["PREROUTING"] + (
         if seen.preroutingJump then []
         else [Rule([Comment("proxy-init/install-proxy-init-prerouting")], Jump("PROXY_INIT_REDIRECT"))])
    && t'["OUTPUT"] == t["OUTPUT"] + (
         if seen.outputJump then []
         else [Rule([Comment("proxy-init/install-proxy-init-output")], Jump("PROXY_INIT_OUTPUT"))])
    && forall c <- t.Keys - {"PREROUTING", "OUTPUT", "PROXY_INIT_REDIRECT", "PROXY_INIT_OUTPUT"} :: t'[c] == t[c]
  }

  lemma {:induction false} ConfiguredByName(t: Table, seen: Seen, fc: FirewallConfiguration)
    requires Sees(t, seen) && Accepts(fc)
    ensures ChangedByName(t, seen, Configure(t, seen, fc).table)
  {
    ConfigureSucceedsExactly(t, seen, fc);
    HooksAreEntries();
    InboundJumpByName();
    OutboundJumpByName();
  }

  // ---- Meaning, at the chains and at the hooks -------------------------------------------

  /** Compilation preserves meaning: afterwards the walk of both chains gives every packet
      exactly the redirection the configuration asks for. */
  lemma {:induction false} ChainsMeanConfiguration(
    sem: Foreigns, t: Table, seen: Seen, fc: FirewallConfiguration, p: Packet, depth: nat)
    requires Sees(t, seen) && Accepts(fc)
    ensures var t' := Configure(t, seen, fc).table;
            && REDIRECT_CHAIN in t' && OUTPUT_CHAIN in t'
            && Redirection(Walk(sem, t', t'[REDIRECT_CHAIN], p, depth)) == InboundVerdict(fc, p)
            && Redirection(Walk(sem, t', t'[OUTPUT_CHAIN], p, depth)) == OutboundVerdict(fc, p)
  {
    ConfigureSucceedsExactly(t, seen, fc);
    var t' := Configure(t, seen, fc).table;
    InboundMeaning(sem, t', fc, p, depth);
    OutboundMeaning(sem, t', fc, p, depth);
  }

  // ---- Fail-stop safety at every command -------------------------------------------------

  /** A run that fails stops at the table some number of whole commands leave. */
  lemma {:induction false} StopsBetweenCommands(t: Table, cmds: seq<Command>) returns (k: nat)
    ensures k <= |cmds| && ExecAll(t, cmds[..k]).ok
    ensures ExecAll(t, cmds[..k]).table == ExecAll(t, cmds).table
    ensures ExecAll(t, cmds).ok <==> k == |cmds|
    decreases |cmds|
  {
    if cmds == [] || Exec(t, cmds[0]).None? {
      k := 0;
    } else {
      var rest := StopsBetweenCommands(Exec(t, cmds[0]).value, cmds[1..]);
      k := rest + 1;
      assert cmds[..k][1..] == cmds[1..][..rest];
    }
  }

  /** The table after the first `k` commands of a configuration. */
  function Snapshot(t: Table, x: Half, y: Half, k: nat): Table
    requires x.hook in t && y.hook in t
  {
    if k <= |x.Commands()| then After(t, x, k) else After(Complete(t, x), y, k - |x.Commands()|)
  }

  lemma {:induction false} PrefixLeavesSnapshot(t: Table, x: Half, y: Half, k: nat)
    requires Independent(x, y) && x.hook in t && y.hook in t
    requires (x.chainSeen <==> x.chain in t) && (y.chainSeen <==> y.chain in t)
    requires k <= |x.Commands() + y.Commands()| && ExecAll(t, (x.Commands() + y.Commands())[..k]).ok
    ensures ExecAll(t, (x.Commands() + y.Commands())[..k]).table == Snapshot(t, x, y, k)
  {
    var m, cmds := |x.Commands()|, x.Commands() + y.Commands();
    if k <= m {
      assert cmds[..k] == x.Commands()[..k];
      RunHalf(t, x, k);
    } else {
      assert cmds[..k] == x.Commands() + y.Commands()[..k - m];
      ExecAllConcat(t, x.Commands(), y.Commands()[..k - m]);
      RunWholeHalf(t, x);
      RunHalf(Complete(t, x), y, k - m);
    }
  }

  /** What a table between two commands holds: each chain a prefix of its rules once its half has
      begun, each hook its old rules until the chain is complete, all other chains untouched. */
  lemma {:induction false} SnapshotShape(t: Table, x: Half, y: Half, k: nat)
    requires Independent(x, y) && x.hook in t && y.hook in t && k <= |x.Commands() + y.Commands()|
    ensures var tk, m := Snapshot(t, x, y, k), |x.Commands()|;
            && (k >= 1 ==> x.chain in tk && tk[x.chain] <= x.rules)
            && (k >= m + 1 ==> y.chain in tk && tk[y.chain] <= y.rules)
            && x.hook in tk && (tk[x.hook] == t[x.hook] || (x.chain in tk && tk[x.chain] == x.rules))
            && y.hook in tk && (tk[y.hook] == t[y.hook] || (y.chain in tk && tk[y.chain] == y.rules))
            && forall c <- t.Keys :: c in tk && (c in {x.hook, x.chain, y.hook, y.chain} || tk[c] == t[c])
  {}

  /** A chain filled so far gives a packet what the full chain gives it, or nothing. */
  lemma {:induction false} PrefixWalk(
    sem: Foreigns, t: Table, prefix: seq<Rule>, rules: seq<Rule>, p: Packet, depth: nat)
    requires prefix <= rules
    ensures Walk(sem, t, prefix, p, depth) in {Walk(sem, t, rules, p, depth), RanOff}
  {
    assert rules == prefix + rules[|prefix|..];
    WalkConcat(sem, t, prefix, rules[|prefix|..], p, depth);
  }

  /** Stop after any command: every packet gets from a chain that has been created or flushed
      either its final verdict or no redirection, and a hook whose jump was absent keeps its
      rules until its chain is complete. This needs nothing of the configuration: an
      unacceptable one stops earlier, just as safely. */
  lemma {:induction false} FailStopSafe(
    sem: Foreigns, t: Table, seen: Seen, fc: FirewallConfiguration, k: nat, p: Packet, depth: nat)
    requires Sees(t, seen)
    requires k <= |Compile(fc, seen)| && ExecAll(t, Compile(fc, seen)[..k]).ok
    ensures var tk, m := ExecAll(t, Compile(fc, seen)[..k]).table, |Inbound(fc, seen).Commands()|;
            && (k >= 1 ==> (REDIRECT_CHAIN in tk
                  && Redirection(Walk(sem, tk, tk[REDIRECT_CHAIN], p, depth)) in {InboundVerdict(fc, p), None}))
            && (k >= m + 1 ==> (OUTPUT_CHAIN in tk
                  && Redirection(Walk(sem, tk, tk[OUTPUT_CHAIN], p, depth)) in {OutboundVerdict(fc, p), None}))
            && PREROUTING in tk && OUTPUT in tk
            && (tk[PREROUTING] == t[PREROUTING] || (REDIRECT_CHAIN in tk && tk[REDIRECT_CHAIN] == InboundRules(fc)))
            && (tk[OUTPUT] == t[OUTPUT] || (OUTPUT_CHAIN in tk && tk[OUTPUT_CHAIN] == OutboundRules(fc)))
  {
    var x, y := Inbound(fc, seen), Outbound(fc, seen);
    HalvesValid(fc, seen);
    PrefixLeavesSnapshot(t, x, y, k);
    SnapshotShape(t, x, y, k);
    var tk := Snapshot(t, x, y, k);
    if k >= 1 {
      PrefixWalk(sem, tk, tk[REDIRECT_CHAIN], x.rules, p, depth);
      InboundMeaning(sem, tk, fc, p, depth);
    }
    if k >= |x.Commands()| + 1 {
      PrefixWalk(sem, tk, tk[OUTPUT_CHAIN], y.rules, p, depth);
      OutboundMeaning(sem, tk, fc, p, depth);
    }
  }
}

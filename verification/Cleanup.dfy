/** pkg/iptables/iptables.go: `CleanupFirewallConfig`, and how far it undoes `ConfigureFirewall`. */
module Cleanup {
  import opened Text
  import opened NatTable
  import opened SavedTable
  import opened Firewall
  import opened ConfigureFirewall
  import opened Printability
  import opened Reconfigure

  // ---- The six commands on any table -----------------------------------------------------

  /** The two places that cleanup takes out. */
  const INBOUND_PLACE := Half(PREROUTING, REDIRECT_CHAIN, [], PREROUTING_JUMP, false, false)
  const OUTBOUND_PLACE := Half(OUTPUT, OUTPUT_CHAIN, [], OUTPUT_JUMP, false, false)

  /** The table without the first of our jumps in each hook and without our chains. */
  function CleanedUp(t: Table): Table
    requires PREROUTING in t && OUTPUT in t
  {
    Unhooked(t, INBOUND_PLACE, OUTBOUND_PLACE) - {REDIRECT_CHAIN, OUTPUT_CHAIN}
  }

  function Unhooked(t: Table, x: Half, y: Half): Table
    requires x.hook in t && y.hook in t
  {
    t[x.hook := Without(t[x.hook], x.jump)][y.hook := Without(t[y.hook], y.jump)]
  }

  /** Both jumps and both chains are there, and nothing else outside the chains refers to them. */
  ghost predicate Removable(t: Table) {
    && PREROUTING in t && OUTPUT in t && REDIRECT_CHAIN in t && OUTPUT_CHAIN in t
    && PREROUTING_JUMP in t[PREROUTING] && OUTPUT_JUMP in t[OUTPUT]
    && !Referenced(CleanedUp(t), REDIRECT_CHAIN) && !Referenced(CleanedUp(t), OUTPUT_CHAIN)
  }

  lemma {:induction false} ExecTwo(t: Table, a: Command, b: Command)
    ensures ExecAll(t, [a, b]) ==
            match Exec(t, a)
            case None => Outcome(t, false)
            case Some(t1) =>
              match Exec(t1, b)
              case None => Outcome(t1, false)
              case Some(t2) => Outcome(t2, true)
  {
    assert [a, b][1..] == [b] && [b][1..] == [];
    if Exec(t, a).Some? && Exec(Exec(t, a).value, b).Some? {
      var t2 := Exec(Exec(t, a).value, b).value;
      assert ExecAll(t2, [b][1..]) == Outcome(t2, true);
    }
  }

  lemma {:induction false} Unhook(t: Table, x: Half, y: Half)
    requires Independent(x, y)
    ensures ExecAll(t, [Delete(x.hook, x.jump), Delete(y.hook, y.jump)]).ok <==>
            x.hook in t && y.hook in t && x.jump in t[x.hook] && y.jump in t[y.hook]
    ensures ExecAll(t, [Delete(x.hook, x.jump), Delete(y.hook, y.jump)]).ok ==>
              ExecAll(t, [Delete(x.hook, x.jump), Delete(y.hook, y.jump)]).table == Unhooked(t, x, y)
  {
    ExecTwo(t, Delete(x.hook, x.jump), Delete(y.hook, y.jump));
  }

  lemma {:induction false} Flush(t: Table, x: Half, y: Half)
    requires Independent(x, y)
    ensures ExecAll(t, [FlushChain(y.chain), FlushChain(x.chain)]).ok <==> x.chain in t && y.chain in t
    ensures ExecAll(t, [FlushChain(y.chain), FlushChain(x.chain)]).ok ==>
              ExecAll(t, [FlushChain(y.chain), FlushChain(x.chain)]).table == t[y.chain := []][x.chain := []]
  {
    ExecTwo(t, FlushChain(y.chain), FlushChain(x.chain));
  }

  /** An empty chain refers to nothing. */
  lemma {:induction false} EmptyRefersToNothing(t: Table, empty: set<string>, chain: string)
    requires forall c <- empty :: c in t ==> t[c] == []
    ensures Referenced(t, chain) <==> Referenced(t - empty, chain)
  {
    if c :| c in t.Keys && JumpsTo(t[c], chain) {
      assert c in (t - empty).Keys && (t - empty)[c] == t[c];
    }
    if c :| c in (t - empty).Keys && JumpsTo((t - empty)[c], chain) {
      assert c in t.Keys && t[c] == (t - empty)[c];
    }
  }

  lemma {:induction false} Drop(t: Table, x: Half, y: Half)
    requires Independent(x, y) && x.chain in t && y.chain in t && t[x.chain] == [] && t[y.chain] == []
    ensures var rest := t - {x.chain, y.chain};
            && (ExecAll(t, [DeleteChain(y.chain), DeleteChain(x.chain)]).ok <==>
                !Referenced(rest, x.chain) && !Referenced(rest, y.chain))
            && (ExecAll(t, [DeleteChain(y.chain), DeleteChain(x.chain)]).ok ==>
                  ExecAll(t, [DeleteChain(y.chain), DeleteChain(x.chain)]).table == rest)
  {
    ExecTwo(t, DeleteChain(y.chain), DeleteChain(x.chain));
    assert t - {y.chain} - {x.chain} == t - {x.chain, y.chain};
    EmptyRefersToNothing(t, {x.chain, y.chain}, y.chain);
    EmptyRefersToNothing(t - {y.chain}, {x.chain}, x.chain);
  }

  lemma {:induction false} PlacesIndependent()
    ensures Independent(INBOUND_PLACE, OUTBOUND_PLACE)
  {}

  function HookCommands(): seq<Command> { [Delete(PREROUTING, PREROUTING_JUMP), Delete(OUTPUT, OUTPUT_JUMP)] }

  function FlushCommands(): seq<Command> { [FlushChain(OUTPUT_CHAIN), FlushChain(REDIRECT_CHAIN)] }

  function DropCommands(): seq<Command> { [DeleteChain(OUTPUT_CHAIN), DeleteChain(REDIRECT_CHAIN)] }

  lemma {:induction false} CleanupInPairs(t: Table)
    ensures var unhooked := ExecAll(t, HookCommands());
            var flushed := ExecAll(unhooked.table, FlushCommands());
            ExecAll(t, CleanupRules()) ==
              if !unhooked.ok then unhooked
              else if !flushed.ok then flushed
              else ExecAll(flushed.table, DropCommands())
  {
    assert CleanupRules() == HookCommands() + (FlushCommands() + DropCommands());
    ExecAllConcat(t, HookCommands(), FlushCommands() + DropCommands());
    ExecAllConcat(ExecAll(t, HookCommands()).table, FlushCommands(), DropCommands());
  }

  lemma {:induction false} FlushedRest(t: Table)
    requires PREROUTING in t && OUTPUT in t
    ensures Unhooked(t, INBOUND_PLACE, OUTBOUND_PLACE)[OUTPUT_CHAIN := []][REDIRECT_CHAIN := []]
              - {REDIRECT_CHAIN, OUTPUT_CHAIN} == CleanedUp(t)
    ensures REDIRECT_CHAIN in Unhooked(t, INBOUND_PLACE, OUTBOUND_PLACE) <==> REDIRECT_CHAIN in t
    ensures OUTPUT_CHAIN in Unhooked(t, INBOUND_PLACE, OUTBOUND_PLACE) <==> OUTPUT_CHAIN in t
  {}

  /** On any table, the six commands succeed exactly when both jumps and both chains are there and
      nothing else refers to the chains; and then they are gone and nothing else has changed. */
  lemma {:induction false} CleanupSucceedsExactly(t: Table)
    ensures ExecAll(t, CleanupRules()).ok <==> Removable(t)
    ensures Removable(t) ==> ExecAll(t, CleanupRules()).table == CleanedUp(t)
  {
    var x, y := INBOUND_PLACE, OUTBOUND_PLACE;
    PlacesIndependent();
    CleanupInPairs(t);
    Unhook(t, x, y);
    if ExecAll(t, HookCommands()).ok {
      var unhooked := Unhooked(t, x, y);
      FlushedRest(t);
      Flush(unhooked, x, y);
      if ExecAll(unhooked, FlushCommands()).ok {
        Drop(unhooked[OUTPUT_CHAIN := []][REDIRECT_CHAIN := []], x, y);
      }
    }
  }

  /** `after` is `before` without the first occurrence of the rule. */
  ghost predicate LosesFirst(before: seq<Rule>, after: seq<Rule>, r: Rule) {
    exists a, b :: before == a + [r] + b && r !in a && after == a + b
  }

  lemma {:induction false} FirstSplit(rules: seq<Rule>, r: Rule) returns (a: seq<Rule>, b: seq<Rule>)
    requires r in rules
    ensures rules == a + ([r] + b) && r !in a && Without(rules, r) == a + b
  {
    if rules[0] == r {
      a, b := [], rules[1..];
    } else {
      var rest: seq<Rule>;
      rest, b := FirstSplit(rules[1..], r);
      a := [rules[0]] + rest;
      assert a + b == [rules[0]] + (rest + b);
      assert a + ([r] + b) == [rules[0]] + (rest + ([r] + b));
    }
  }

  lemma {:induction false} WithoutLosesFirst(rules: seq<Rule>, r: Rule)
    requires r in rules
    ensures LosesFirst(rules, Without(rules, r), r)
  {
    var a, b := FirstSplit(rules, r);
    assert a + [r] + b == a + ([r] + b);
  }

  /** What cleanup takes out, by name: a jump to PROXY_INIT_REDIRECT from PREROUTING, one to
      PROXY_INIT_OUTPUT from OUTPUT, and these two chains; afterwards nothing refers to them, and no
      other chain has changed. */
  lemma {:induction false} CleanupByName(t: Table)
    requires ExecAll(t, CleanupRules()).ok
    ensures "PREROUTING" in t && "OUTPUT" in t && "PROXY_INIT_REDIRECT" in t && "PROXY_INIT_OUTPUT" in t
    ensures var t' := ExecAll(t, CleanupRules()).table;
            && t'.Keys == t.Keys - {"PROXY_INIT_REDIRECT", "PROXY_INIT_OUTPUT"}
            && "PREROUTING" in t' && "OUTPUT" in t'
            && LosesFirst(t["PREROUTING"], t'["PREROUTING"],
                          Rule([Comment("proxy-init/install-proxy-init-prerouting")], Jump("PROXY_INIT_REDIRECT")))
            && LosesFirst(t["OUTPUT"], t'["OUTPUT"],
                          Rule([Comment("proxy-init/install-proxy-init-output")], Jump("PROXY_INIT_OUTPUT")))
            && !Referenced(t', "PROXY_INIT_REDIRECT") && !Referenced(t', "PROXY_INIT_OUTPUT")
            && forall c <- t'.Keys - {"PREROUTING", "OUTPUT"} :: t'[c] == t[c]
  {
    CleanupSucceedsExactly(t);
    HooksAreEntries();
    InboundJumpByName();
    OutboundJumpByName();
    WithoutLosesFirst(t[PREROUTING], PREROUTING_JUMP);
    WithoutLosesFirst(t[OUTPUT], OUTPUT_JUMP);
    OwnChainsAreNoHooks();
  }

  lemma {:induction false} OwnChainsAreNoHooks()
    ensures {PREROUTING, OUTPUT} !! {REDIRECT_CHAIN, OUTPUT_CHAIN} && PREROUTING != OUTPUT
  {}

  /** CleanupFirewallConfig with ContinueOnError false. Without outside failures it succeeds exactly on
      removable tables; and on what configurations made of an unconfigured table exactly when neither
      hook held a rule that reads as our jump, and then it restores that table. */
  method RunCleanupFirewallConfig(kernel: Kernel, faults: set<nat>) returns (ok: bool, ghost done: nat)
    requires kernel.Valid()
    modifies kernel
    ensures kernel.Valid()
    ensures done <= |CleanupRules()|
    ensures Outcome(kernel.chains, true) == ExecAll(old(kernel.chains), CleanupRules()[..done])
    ensures ok <==> done == |CleanupRules()|
    ensures faults == {} ==> Outcome(kernel.chains, ok) == ExecAll(old(kernel.chains), CleanupRules())
    ensures faults == {} ==> (ok <==> Removable(old(kernel.chains)))
    ensures faults == {} && ok ==> kernel.chains == CleanedUp(old(kernel.chains))
    ensures faults == {} ==>
              forall tables, readings, fcs ::
                Runs(tables, readings, fcs) && fcs != [] && Unconfigured(tables[0])
                && tables[|fcs|] == old(kernel.chains) ==>
                  && (ok <==> !MisreadsHooks(tables[0]))
                  && (ok ==> kernel.chains == tables[0])
  {
    CleanupSucceedsExactly(kernel.chains);
    forall tables, readings, fcs |
      Runs(tables, readings, fcs) && fcs != [] && Unconfigured(tables[0]) && tables[|fcs|] == kernel.chains
      ensures ExecAll(kernel.chains, CleanupRules()).ok <==> !MisreadsHooks(tables[0])
      ensures ExecAll(kernel.chains, CleanupRules()).ok ==>
                ExecAll(kernel.chains, CleanupRules()).table == tables[0]
    {
      CleanupInverts(tables, readings, fcs);
    }
    ok, done := kernel.ExecuteAll(CleanupRules(), faults);
  }

  // ---- After configurations --------------------------------------------------------------

  /** Some rule of a hook reads as a jump to our chain. */
  ghost predicate MisreadsHooks(t: Table)
    requires PREROUTING in t && OUTPUT in t
  {
    ReadsJump(t[PREROUTING], REDIRECT_CHAIN) || ReadsJump(t[OUTPUT], OUTPUT_CHAIN)
  }

  /** What is left of an unconfigured table when a complete installation is taken out of it. */
  lemma {:induction false} CleanedUpPartly(t: Table, t': Table, x: Half, y: Half)
    requires Unconfigured(t) && PartlyInstalled(t, t', x, y, true, true)
    requires SamePlace(INBOUND_PLACE, x) && SamePlace(OUTBOUND_PLACE, y)
    ensures CleanedUp(t') == t
  {
    UnconfiguredHooks(t);
    WithoutLast(t[PREROUTING], PREROUTING_JUMP);
    WithoutLast(t[OUTPUT], OUTPUT_JUMP);
    var rest := CleanedUp(t');
    assert rest.Keys == t.Keys;
    assert rest[PREROUTING] == t[PREROUTING] && rest[OUTPUT] == t[OUTPUT];
    assert forall c <- rest.Keys :: rest[c] == t[c];
  }

  lemma {:induction false} PartlyRemovable(t: Table, t': Table, x: Half, y: Half, jx: bool, jy: bool)
    requires Unconfigured(t) && PartlyInstalled(t, t', x, y, jx, jy)
    requires SamePlace(INBOUND_PLACE, x) && SamePlace(OUTBOUND_PLACE, y)
    requires jx && jy ==> REDIRECT_CHAIN in t' && OUTPUT_CHAIN in t'
    ensures Removable(t') <==> jx && jy
    ensures jx && jy ==> CleanedUp(t') == t
  {
    UnconfiguredHooks(t);
    assert t[PREROUTING] + [] == t[PREROUTING] && t[OUTPUT] + [] == t[OUTPUT];
    if jx && jy {
      CleanedUpPartly(t, t', x, y);
      assert PREROUTING_JUMP in [PREROUTING_JUMP] && OUTPUT_JUMP in [OUTPUT_JUMP];
    }
  }

  /** Cleaning `t'` up gives `t` back, if no hook of `t` is misread, and else is refused. */
  ghost predicate Restorable(t: Table, t': Table)
    requires PREROUTING in t && OUTPUT in t
  {
    (Removable(t') <==> !MisreadsHooks(t)) && (Removable(t') ==> CleanedUp(t') == t)
  }

  /** Cleanup inverts configuration, exactly: after any positive number of runs on an unconfigured
      table, the six commands succeed if and only if no rule of either hook read as our jump before;
      and then they restore the original table, other rules and their order included. */
  lemma {:induction false} CleanupInverts(tables: seq<Table>, readings: seq<Seen>, fcs: seq<FirewallConfiguration>)
    requires Runs(tables, readings, fcs) && fcs != [] && Unconfigured(tables[0])
    ensures ExecAll(tables[|fcs|], CleanupRules()).ok <==> !MisreadsHooks(tables[0])
    ensures ExecAll(tables[|fcs|], CleanupRules()).ok ==>
              ExecAll(tables[|fcs|], CleanupRules()).table == tables[0]
  {
    RestorableAfterRuns(tables, readings, fcs);
    CleanupSucceedsExactly(tables[|fcs|]);
  }

  lemma {:induction false} RestorableAfterRuns(tables: seq<Table>, readings: seq<Seen>, fcs: seq<FirewallConfiguration>)
    requires Runs(tables, readings, fcs) && fcs != [] && Unconfigured(tables[0])
    ensures Restorable(tables[0], tables[|fcs|])
  {
    LastConfigurationWins(tables, readings, fcs, |fcs|);
    LeftIsRestorable(tables[0], fcs[|fcs| - 1], tables[|fcs|]);
  }

  lemma {:induction false} LeftIsRestorable(t: Table, fc: FirewallConfiguration, t': Table)
    requires Unconfigured(t) && LeftBy(t, fc, t')
    ensures Restorable(t, t')
  {
    var seen := Seen(false, false, ReadsJump(t[PREROUTING], REDIRECT_CHAIN), ReadsJump(t[OUTPUT], OUTPUT_CHAIN));
    var x, y := Inbound(fc, seen), Outbound(fc, seen);
    HalvesValid(fc, seen);
    CompletePartly(t, x, y);
    PartlyRemovable(t, t', x, y, !seen.preroutingJump, !seen.outputJump);
  }

  /** Cleanup after a run that was cut short on an unconfigured table: only if the run had in fact
      ended, and had installed both jumps, do the six commands succeed. */
  lemma {:induction false} CleanupAfterStop(t: Table, seen: Seen, fc: FirewallConfiguration, k: nat)
    requires Sees(t, seen) && Unconfigured(t)
    requires k <= |Compile(fc, seen)| && ExecAll(t, Compile(fc, seen)[..k]).ok
    ensures var tk := ExecAll(t, Compile(fc, seen)[..k]).table;
            && (ExecAll(tk, CleanupRules()).ok <==> k == |Compile(fc, seen)| && !MisreadsHooks(t))
            && (ExecAll(tk, CleanupRules()).ok ==> ExecAll(tk, CleanupRules()).table == t)
  {
    var x, y := Inbound(fc, seen), Outbound(fc, seen);
    HalvesValid(fc, seen);
    PrefixLeavesSnapshot(t, x, y, k);
    SnapshotPartly(t, x, y, k);
    SnapshotShape(t, x, y, k);
    PartlyRemovable(t, Snapshot(t, x, y, k), x, y, !x.jumpSeen && k >= |x.Commands()|,
                    !y.jumpSeen && k == |x.Commands()| + |y.Commands()|);
    CleanupSucceedsExactly(Snapshot(t, x, y, k));
  }

  // ---- Two tables ------------------------------------------------------------------------

  lemma {:induction false} EmptyNatIsUnconfigured()
    ensures Unconfigured(EMPTY_NAT) && Ready(EMPTY_NAT) && !MisreadsHooks(EMPTY_NAT)
  {
    assert EMPTY_NAT.Keys == {PREROUTING, "INPUT", OUTPUT, "POSTROUTING"};
    BuiltinNames();
  }

  lemma {:induction false} BuiltinNames()
    ensures IsName("PREROUTING") && IsName("INPUT") && IsName("OUTPUT") && IsName("POSTROUTING")
  {}

  /** A hook whose one rule only quotes the jump in a comment. */
  const QUOTING: Rule := Rule([Comment("see -j " + REDIRECT_CHAIN)], Return)
  const QUOTING_NAT: Table := EMPTY_NAT[PREROUTING := [QUOTING]]

  /** There, configuring installs no inbound jump, however often it runs, and cleanup is refused at its
      first command. */
  lemma {:induction false} QuotingTableDefeatsBoth(
    tables: seq<Table>, readings: seq<Seen>, fcs: seq<FirewallConfiguration>)
    requires Runs(tables, readings, fcs) && fcs != [] && tables[0] == QUOTING_NAT
    ensures var t' := tables[|fcs|];
            && PREROUTING in t' && t'[PREROUTING] == [QUOTING]
            && ExecAll(t', CleanupRules()) == Outcome(t', false)
  {
    QuotingStays(tables, readings, fcs);
    FirstDeleteRefused(tables[|fcs|]);
  }

  lemma {:induction false} QuotingStays(tables: seq<Table>, readings: seq<Seen>, fcs: seq<FirewallConfiguration>)
    requires Runs(tables, readings, fcs) && fcs != [] && tables[0] == QUOTING_NAT
    ensures PREROUTING in tables[|fcs|] && tables[|fcs|][PREROUTING] == [QUOTING]
  {
    QuotingIsMisread();
    LastConfigurationWins(tables, readings, fcs, |fcs|);
    MisreadHookStays(tables[0], fcs[|fcs| - 1], tables[|fcs|]);
  }

  lemma {:induction false} MisreadHookStays(t: Table, fc: FirewallConfiguration, t': Table)
    requires LeftBy(t, fc, t') && ReadsJump(t[PREROUTING], REDIRECT_CHAIN)
    ensures PREROUTING in t' && t'[PREROUTING] == t[PREROUTING]
  {
    assert t[PREROUTING] + [] == t[PREROUTING];
  }

  lemma {:induction false} FirstDeleteRefused(t: Table)
    requires PREROUTING in t && PREROUTING_JUMP !in t[PREROUTING]
    ensures ExecAll(t, CleanupRules()) == Outcome(t, false)
  {
    assert Exec(t, CleanupRules()[0]).None?;
  }

  lemma {:induction false} QuotingIsMisread()
    ensures ReadsJump([QUOTING], REDIRECT_CHAIN)
  {
    OwnTextsOneLine();
    JumpPatternCanBeFooled(REDIRECT_CHAIN);
    assert QUOTING in [QUOTING];
  }
}

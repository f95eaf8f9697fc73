/** pkg/iptables/iptables.go: `ConfigureFirewall` run again and again, over the table that earlier
    runs left, whether they ended or were cut short. */
module Reconfigure {
  import opened NatTable
  import opened SavedTable
  import opened Firewall
  import opened ConfigureFirewall
  import opened Printability

  // ---- Installing over a partial installation --------------------------------------------

  /** `t'` is `t` but for the two chains, which may hold anything, and the two jumps, of which
      `jx` and `jy` say whether they have been appended. */
  ghost predicate PartlyInstalled(t: Table, t': Table, x: Half, y: Half, jx: bool, jy: bool) {
    && x.hook in t && y.hook in t
    && t.Keys <= t'.Keys <= t.Keys + {x.chain, y.chain}
    && (forall c <- t.Keys - {x.hook, y.hook, x.chain, y.chain} :: t'[c] == t[c])
    && t'[x.hook] == t[x.hook] + (if jx then [x.jump] else [])
    && t'[y.hook] == t[y.hook] + (if jy then [y.jump] else [])
  }

  /** The half `h` with another configuration's rules. */
  ghost predicate SamePlace(h: Half, h': Half) {
    h'.hook == h.hook && h'.chain == h.chain && h'.jump == h.jump
  }

  /** Whatever a partial installation left, installing over it leaves what installing on the
      original table leaves. */
  lemma {:induction false} InstallOver(
    t: Table, t': Table, x: Half, y: Half, jx: bool, jy: bool, x': Half, y': Half)
    requires PartlyInstalled(t, t', x, y, jx, jy)
    requires Independent(x', y') && SamePlace(x, x') && SamePlace(y, y')
    requires (x'.jumpSeen <==> x.jumpSeen || jx) && (jx ==> !x.jumpSeen)
    requires (y'.jumpSeen <==> y.jumpSeen || jy) && (jy ==> !y.jumpSeen)
    ensures Complete(Complete(t', x'), y') ==
            Complete(Complete(t, x'.(jumpSeen := x.jumpSeen)), y'.(jumpSeen := y.jumpSeen))
  {
    var a, b := Complete(Complete(t', x'), y'),
                Complete(Complete(t, x'.(jumpSeen := x.jumpSeen)), y'.(jumpSeen := y.jumpSeen));
    assert a.Keys == b.Keys;
    assert a[x.hook] == b[x.hook] && a[y.hook] == b[y.hook];
    assert forall c <- a.Keys :: a[c] == b[c];
  }

  lemma {:induction false} CompletePartly(t: Table, x: Half, y: Half)
    requires Independent(x, y) && x.hook in t && y.hook in t
    ensures PartlyInstalled(t, Complete(Complete(t, x), y), x, y, !x.jumpSeen, !y.jumpSeen)
  {}

  /** How a reading of a partly installed table differs from a reading of the original. */
  lemma {:induction false} ReadsPartly(t: Table, t': Table, fc: FirewallConfiguration, seen: Seen, jx: bool, jy: bool)
    requires PartlyInstalled(t, t', Inbound(fc, seen), Outbound(fc, seen), jx, jy)
    ensures ReadsJump(t'[PREROUTING], REDIRECT_CHAIN) <==> ReadsJump(t[PREROUTING], REDIRECT_CHAIN) || jx
    ensures ReadsJump(t'[OUTPUT], OUTPUT_CHAIN) <==> ReadsJump(t[OUTPUT], OUTPUT_CHAIN) || jy
  {
    OwnJumpsAreRead();
    ReadsJumpConcat(t[PREROUTING], if jx then [PREROUTING_JUMP] else [], REDIRECT_CHAIN);
    ReadsJumpConcat(t[OUTPUT], if jy then [OUTPUT_JUMP] else [], OUTPUT_CHAIN);
  }

  /** A run over whatever an earlier one left, complete or not, succeeds exactly when it would on the
      original table, and leaves the same. */
  lemma {:induction false} RunOver(
    t: Table, seen: Seen, earlier: FirewallConfiguration, t': Table, jx: bool, jy: bool,
    seen': Seen, fc: FirewallConfiguration)
    requires Sees(t, seen) && Sees(t', seen')
    requires PartlyInstalled(t, t', Inbound(earlier, seen), Outbound(earlier, seen), jx, jy)
    requires (jx ==> !seen.preroutingJump) && (jy ==> !seen.outputJump)
    ensures Configure(t', seen', fc).ok <==> Accepts(fc)
    ensures Accepts(fc) ==>
              Configure(t', seen', fc).table == Installed(t, fc, seen.preroutingJump, seen.outputJump)
  {
    ConfigureSucceedsExactly(t', seen', fc);
    ReadsPartly(t, t', earlier, seen, jx, jy);
    var places := Seen(false, false, seen'.preroutingJump, seen'.outputJump);
    HalvesValid(fc, places);
    InstallOver(t, t', Inbound(earlier, seen), Outbound(earlier, seen), jx, jy,
                Inbound(fc, places), Outbound(fc, places));
    InstalledSeen(t, fc, seen, places);
  }

  lemma {:induction false} InstalledSeen(t: Table, fc: FirewallConfiguration, seen: Seen, places: Seen)
    requires PREROUTING in t && OUTPUT in t && !places.redirectChain && !places.outputChain
    ensures Complete(Complete(t, Inbound(fc, places).(jumpSeen := seen.preroutingJump)),
                     Outbound(fc, places).(jumpSeen := seen.outputJump)) ==
            Installed(t, fc, seen.preroutingJump, seen.outputJump)
  {}

  // ---- Repeated runs ---------------------------------------------------------------------

  /** Runs with each of `fcs` in turn, all commands succeeding and the table being read again before
      each: `tables` has the table before the first and after each. */
  ghost predicate Runs(tables: seq<Table>, readings: seq<Seen>, fcs: seq<FirewallConfiguration>) {
    && |tables| == |fcs| + 1 && |readings| == |fcs|
    && forall k :: 0 <= k < |fcs| ==> RunsAt(tables, readings, fcs, k)
  }

  ghost predicate RunsAt(tables: seq<Table>, readings: seq<Seen>, fcs: seq<FirewallConfiguration>, k: nat)
    requires k < |fcs| == |readings| && |tables| == |fcs| + 1
  {
    RunsOnce(tables[k], readings[k], fcs[k], tables[k + 1])
  }

  ghost predicate RunsOnce(t: Table, seen: Seen, fc: FirewallConfiguration, t': Table) {
    Sees(t, seen) && Configure(t, seen, fc) == Outcome(t', true)
  }

  /** The table of one configuration on `t`, by what `t` itself is read as. */
  ghost function Alone(t: Table, fc: FirewallConfiguration): Table
    requires PREROUTING in t && OUTPUT in t
  {
    Installed(t, fc, ReadsJump(t[PREROUTING], REDIRECT_CHAIN), ReadsJump(t[OUTPUT], OUTPUT_CHAIN))
  }

  /** `t'` is exactly the table that the one configuration leaves of `t`. */
  ghost predicate LeftBy(t: Table, fc: FirewallConfiguration, t': Table) {
    PREROUTING in t && OUTPUT in t && Accepts(fc) && t' == Alone(t, fc)
  }

  lemma {:induction false} FirstRun(t: Table, seen: Seen, fc: FirewallConfiguration, t': Table)
    requires RunsOnce(t, seen, fc, t')
    ensures LeftBy(t, fc, t')
  {
    ConfigureSucceedsExactly(t, seen, fc);
  }

  lemma {:induction false} RunAgain(
    t: Table, earlier: FirewallConfiguration, t': Table, seen': Seen, fc: FirewallConfiguration)
    requires LeftBy(t, earlier, t') && Sees(t', seen')
    ensures Configure(t', seen', fc).ok <==> Accepts(fc)
    ensures Accepts(fc) ==> LeftBy(t, fc, Configure(t', seen', fc).table)
  {
    var seen := Seen(REDIRECT_CHAIN in t, OUTPUT_CHAIN in t,
                     ReadsJump(t[PREROUTING], REDIRECT_CHAIN), ReadsJump(t[OUTPUT], OUTPUT_CHAIN));
    HalvesValid(earlier, seen);
    CompletePartly(t, Inbound(earlier, seen), Outbound(earlier, seen));
    RunOver(t, seen, earlier, t', !seen.preroutingJump, !seen.outputJump, seen', fc);
  }

  lemma {:induction false} LaterRun(
    t: Table, earlier: FirewallConfiguration, t1: Table, seen: Seen, fc: FirewallConfiguration, t2: Table)
    requires LeftBy(t, earlier, t1) && RunsOnce(t1, seen, fc, t2)
    ensures LeftBy(t, fc, t2)
  {
    RunAgain(t, earlier, t1, seen, fc);
  }

  lemma {:induction false} SameLeft(t: Table, fc: FirewallConfiguration, a: Table, b: Table)
    requires LeftBy(t, fc, a) && LeftBy(t, fc, b)
    ensures a == b
  {}

  /** The last configuration wins, from every table with both hooks, whatever it holds: any number of
      runs leaves exactly the table of the last configuration alone. */
  lemma {:induction false} LastConfigurationWins(
    tables: seq<Table>, readings: seq<Seen>, fcs: seq<FirewallConfiguration>, k: nat)
    requires Runs(tables, readings, fcs) && 0 < k <= |fcs|
    ensures LeftBy(tables[0], fcs[k - 1], tables[k])
  {
    if k > 1 {
      LastConfigurationWins(tables, readings, fcs, k - 1);
    }
    OneMoreRun(tables, readings, fcs, k - 1);
  }

  lemma {:induction false} OneMoreRun(
    tables: seq<Table>, readings: seq<Seen>, fcs: seq<FirewallConfiguration>, k: nat)
    requires k < |fcs| == |readings| && |tables| == |fcs| + 1 && RunsAt(tables, readings, fcs, k)
    requires k > 0 ==> LeftBy(tables[0], fcs[k - 1], tables[k])
    ensures LeftBy(tables[0], fcs[k], tables[k + 1])
  {
    var t, t1, t2, seen, fc := tables[0], tables[k], tables[k + 1], readings[k], fcs[k];
    assert RunsOnce(t1, seen, fc, t2);
    if k == 0 {
      FirstRun(t1, seen, fc, t2);
    } else {
      LaterRun(t, fcs[k - 1], t1, seen, fc, t2);
    }
  }

  /** After any runs, one more with an acceptable configuration succeeds. */
  lemma {:induction false} NextRunSucceeds(
    tables: seq<Table>, readings: seq<Seen>, fcs: seq<FirewallConfiguration>, seen: Seen, fc: FirewallConfiguration)
    requires Runs(tables, readings, fcs) && Sees(tables[|fcs|], seen) && Accepts(fc)
    ensures Runs(tables + [Configure(tables[|fcs|], seen, fc).table], readings + [seen], fcs + [fc])
  {
    ConfigureSucceedsExactly(tables[|fcs|], seen, fc);
    RunsExtend(tables, readings, fcs, seen, fc, Configure(tables[|fcs|], seen, fc).table);
  }

  lemma {:induction false} RunsExtend(
    tables: seq<Table>, readings: seq<Seen>, fcs: seq<FirewallConfiguration>,
    seen: Seen, fc: FirewallConfiguration, t': Table)
    requires Runs(tables, readings, fcs) && RunsOnce(tables[|fcs|], seen, fc, t')
    ensures Runs(tables + [t'], readings + [seen], fcs + [fc])
  {
    forall k | 0 <= k < |fcs + [fc]| ensures RunsAt(tables + [t'], readings + [seen], fcs + [fc], k) {
      RunsAtExtended(tables, readings, fcs, seen, fc, t', k);
    }
  }

  lemma {:induction false} RunsAtExtended(
    tables: seq<Table>, readings: seq<Seen>, fcs: seq<FirewallConfiguration>,
    seen: Seen, fc: FirewallConfiguration, t': Table, k: nat)
    requires Runs(tables, readings, fcs) && RunsOnce(tables[|fcs|], seen, fc, t') && k <= |fcs|
    ensures RunsAt(tables + [t'], readings + [seen], fcs + [fc], k)
  {
    if k < |fcs| {
      assert RunsAt(tables, readings, fcs, k);
      RunsAtKept(tables, readings, fcs, seen, fc, t', k);
    }
  }

  lemma {:induction false} RunsAtKept(
    tables: seq<Table>, readings: seq<Seen>, fcs: seq<FirewallConfiguration>,
    seen: Seen, fc: FirewallConfiguration, t': Table, k: nat)
    requires k < |fcs| == |readings| && |tables| == |fcs| + 1 && RunsAt(tables, readings, fcs, k)
    ensures RunsAt(tables + [t'], readings + [seen], fcs + [fc], k)
  {
    assert RunsOnce(tables[k], readings[k], fcs[k], tables[k + 1]);
  }

  /** Running the last configuration again changes nothing. */
  lemma {:induction false} RerunChangesNothing(
    tables: seq<Table>, readings: seq<Seen>, fcs: seq<FirewallConfiguration>, seen: Seen)
    requires Runs(tables, readings, fcs) && fcs != [] && Sees(tables[|fcs|], seen)
    ensures Configure(tables[|fcs|], seen, fcs[|fcs| - 1]) == Outcome(tables[|fcs|], true)
  {
    LastConfigurationWins(tables, readings, fcs, |fcs|);
    RerunOfLast(tables[0], fcs[|fcs| - 1], tables[|fcs|], seen);
  }

  lemma {:induction false} RerunOfLast(t: Table, fc: FirewallConfiguration, t': Table, seen: Seen)
    requires LeftBy(t, fc, t') && Sees(t', seen)
    ensures Configure(t', seen, fc) == Outcome(t', true)
  {
    RunAgain(t, fc, t', seen, fc);
    SameLeft(t, fc, t', Configure(t', seen, fc).table);
  }

  /** After any runs on a table that can be read, the table can be read again, as ScanFaithful says. */
  lemma {:induction false} RunsStayReady(
    tables: seq<Table>, readings: seq<Seen>, fcs: seq<FirewallConfiguration>, k: nat)
    requires Runs(tables, readings, fcs) && Ready(tables[0]) && k <= |fcs|
    ensures Ready(tables[k])
  {
    if k > 0 {
      LastConfigurationWins(tables, readings, fcs, k);
      InstalledIsReady(tables[0], fcs[k - 1],
                       ReadsJump(tables[0][PREROUTING], REDIRECT_CHAIN), ReadsJump(tables[0][OUTPUT], OUTPUT_CHAIN));
    }
  }

  // ---- After a run that was cut short ----------------------------------------------------

  lemma {:induction false} SnapshotPartly(t: Table, x: Half, y: Half, k: nat)
    requires Independent(x, y) && x.hook in t && y.hook in t && k <= |x.Commands() + y.Commands()|
    ensures PartlyInstalled(t, Snapshot(t, x, y, k), x, y,
                            !x.jumpSeen && k >= |x.Commands()|, !y.jumpSeen && k == |x.Commands()| + |y.Commands()|)
  {}

  /** A run cut short after any command is made good by the next: from the table it left, whatever the
      two configurations, a run succeeds and leaves exactly as it would have from the start. */
  lemma {:induction false} RecoveryAfterStop(
    t: Table, seen: Seen, stopped: FirewallConfiguration, k: nat, seen': Seen, fc: FirewallConfiguration)
    requires Sees(t, seen)
    requires k <= |Compile(stopped, seen)| && ExecAll(t, Compile(stopped, seen)[..k]).ok
    requires Sees(ExecAll(t, Compile(stopped, seen)[..k]).table, seen')
    ensures var tk := ExecAll(t, Compile(stopped, seen)[..k]).table;
            && (Configure(tk, seen', fc).ok <==> Configure(t, seen, fc).ok)
            && (Configure(t, seen, fc).ok ==> Configure(tk, seen', fc) == Configure(t, seen, fc))
  {
    var x, y := Inbound(stopped, seen), Outbound(stopped, seen);
    HalvesValid(stopped, seen);
    PrefixLeavesSnapshot(t, x, y, k);
    SnapshotPartly(t, x, y, k);
    RunOver(t, seen, stopped, Snapshot(t, x, y, k), !x.jumpSeen && k >= |x.Commands()|,
            !y.jumpSeen && k == |x.Commands()| + |y.Commands()|, seen', fc);
    ConfigureSucceedsExactly(t, seen, fc);
  }

  // ---- Jumps -----------------------------------------------------------------------------

  /** A table with both hooks, without our chains and without jumps to them. */
  ghost predicate Unconfigured(t: Table) {
    && PREROUTING in t && OUTPUT in t
    && REDIRECT_CHAIN !in t && OUTPUT_CHAIN !in t
    && !Referenced(t, REDIRECT_CHAIN) && !Referenced(t, OUTPUT_CHAIN)
  }

  lemma {:induction false} UnconfiguredHooks(t: Table)
    requires Unconfigured(t)
    ensures !JumpsTo(t[PREROUTING], REDIRECT_CHAIN) && !JumpsTo(t[OUTPUT], OUTPUT_CHAIN)
    ensures PREROUTING_JUMP !in t[PREROUTING] && OUTPUT_JUMP !in t[OUTPUT]
  {
    assert PREROUTING in t.Keys && OUTPUT in t.Keys;
  }

  /** However often an unconfigured table is configured, each hook holds exactly one jump if and only
      if no rule it held before reads as one; else it holds none. */
  lemma {:induction false} OneJumpPerHook(tables: seq<Table>, readings: seq<Seen>, fcs: seq<FirewallConfiguration>)
    requires Runs(tables, readings, fcs) && fcs != [] && Unconfigured(tables[0])
    ensures var t, t' := tables[0], tables[|fcs|];
            && PREROUTING in t' && OUTPUT in t'
            && multiset(t'[PREROUTING])[PREROUTING_JUMP] == (if ReadsJump(t[PREROUTING], REDIRECT_CHAIN) then 0 else 1)
            && multiset(t'[OUTPUT])[OUTPUT_JUMP] == (if ReadsJump(t[OUTPUT], OUTPUT_CHAIN) then 0 else 1)
  {
    LastConfigurationWins(tables, readings, fcs, |fcs|);
    JumpsLeft(tables[0], fcs[|fcs| - 1], tables[|fcs|]);
  }

  lemma {:induction false} JumpsLeft(t: Table, fc: FirewallConfiguration, t': Table)
    requires Unconfigured(t) && LeftBy(t, fc, t')
    ensures && PREROUTING in t' && OUTPUT in t'
            && multiset(t'[PREROUTING])[PREROUTING_JUMP] == (if ReadsJump(t[PREROUTING], REDIRECT_CHAIN) then 0 else 1)
            && multiset(t'[OUTPUT])[OUTPUT_JUMP] == (if ReadsJump(t[OUTPUT], OUTPUT_CHAIN) then 0 else 1)
  {
    UnconfiguredHooks(t);
    assert t[PREROUTING] + [] == t[PREROUTING] && t[OUTPUT] + [] == t[OUTPUT];
  }
}

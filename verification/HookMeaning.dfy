/** pkg/iptables/iptables.go: what packets meet at the hooks, from where they reach the configured
    chains: after a configuration, and while one is under way. */
module HookMeaning {
  import opened Text
  import opened NatTable
  import opened SavedTable
  import opened Firewall
  import opened ConfigureFirewall

  // ---- What the hooks come to mean -------------------------------------------------------

  const OWN_CHAINS: set<string> := {REDIRECT_CHAIN, OUTPUT_CHAIN}

  /** The table before a run with the jumps the run appends: those not seen. */
  function Hooked(t: Table, seen: Seen): Table
    requires PREROUTING in t && OUTPUT in t
  {
    t[PREROUTING := t[PREROUTING] + (if seen.preroutingJump then [] else [PREROUTING_JUMP])]
     [OUTPUT := t[OUTPUT] + (if seen.outputJump then [] else [OUTPUT_JUMP])]
  }

  /** The decision that stands for a redirection, or for none. */
  function DecisionOf(redirection: Option<int>): Decision {
    if redirection.Some? then Redirected(redirection.value) else RanOff
  }

  /** What a configuration asks of each of our chains, for a packet. */
  ghost function Asked(fc: FirewallConfiguration, p: Packet): map<string, Decision> {
    map[REDIRECT_CHAIN := DecisionOf(InboundVerdict(fc, p)), OUTPUT_CHAIN := DecisionOf(OutboundVerdict(fc, p))]
  }

  /** The walk of rules in which the asked chains are not looked into: a jump to one of them has the
      effect asked for. */
  ghost function Meant(
    sem: Foreigns, t: Table, asked: map<string, Decision>, rules: seq<Rule>, p: Packet, depth: nat): Decision
    decreases depth, |rules|
  {
    if rules == [] then RanOff
    else if !HitsAll(sem, rules[0], p) then Meant(sem, t, asked, rules[1..], p, depth)
    else
      match rules[0].target
      case Return => Returned
      case Redirect(port) => Redirected(port)
      case Terminal(name) => Decided(name)
      case Jump(c) =>
        if depth == 0 || (c !in asked && c !in t) then Decided("DROP")
        else
          var inner := if c in asked then asked[c] else Meant(sem, t, asked, t[c], p, depth - 1);
          if inner.RanOff? || inner.Returned? then Meant(sem, t, asked, rules[1..], p, depth) else inner
  }

  /** A decision is as asked, but for how a packet that is not redirected leaves the chain. */
  predicate SameEffect(d: Decision, asked: Decision) {
    d == asked || (asked.RanOff? && d.Returned?)
  }

  /** `t'` is `t` but for the asked chains. */
  ghost predicate SameBut(t: Table, asked: map<string, Decision>, t': Table) {
    t'.Keys == t.Keys + asked.Keys && forall c <- t.Keys - asked.Keys :: t'[c] == t[c]
  }

  /** The asked chains of `t'` have the effect asked for, whatever the depth of the walk. */
  ghost predicate AsAsked(sem: Foreigns, asked: map<string, Decision>, t': Table, p: Packet) {
    forall c, d: nat :: c in asked && c in t' ==> SameEffect(Walk(sem, t', t'[c], p, d), asked[c])
  }

  /** Chains that have the effect asked for can be taken for it, wherever a walk meets them. */
  lemma {:induction false} WalkIsMeant(
    sem: Foreigns, t: Table, asked: map<string, Decision>, t': Table, rules: seq<Rule>, p: Packet, depth: nat)
    requires SameBut(t, asked, t') && AsAsked(sem, asked, t', p)
    ensures Walk(sem, t', rules, p, depth) == Meant(sem, t, asked, rules, p, depth)
    decreases depth, |rules|
  {
    if rules != [] {
      WalkIsMeant(sem, t, asked, t', rules[1..], p, depth);
      if rules[0].target.Jump? && depth > 0 {
        var c := rules[0].target.chain;
        if c in asked {
          assert SameEffect(Walk(sem, t', t'[c], p, depth - 1), asked[c]);
        } else if c in t {
          WalkIsMeant(sem, t, asked, t', t[c], p, depth - 1);
        }
      }
    }
  }

  lemma {:induction false} InboundAsAsked(sem: Foreigns, t': Table, fc: FirewallConfiguration, p: Packet, d: nat)
    ensures SameEffect(Walk(sem, t', InboundRules(fc), p, d), DecisionOf(InboundVerdict(fc, p)))
  {
    InboundMeaning(sem, t', fc, p, d);
  }

  lemma {:induction false} OutboundAsAsked(sem: Foreigns, t': Table, fc: FirewallConfiguration, p: Packet, d: nat)
    ensures SameEffect(Walk(sem, t', OutboundRules(fc), p, d), DecisionOf(OutboundVerdict(fc, p)))
  {
    OutboundMeaning(sem, t', fc, p, d);
  }

  lemma {:induction false} InstalledAsAsked(sem: Foreigns, t': Table, fc: FirewallConfiguration, p: Packet)
    requires REDIRECT_CHAIN in t' && t'[REDIRECT_CHAIN] == InboundRules(fc)
    requires OUTPUT_CHAIN in t' && t'[OUTPUT_CHAIN] == OutboundRules(fc)
    ensures AsAsked(sem, Asked(fc, p), t', p)
  {
    forall c, d: nat | c in Asked(fc, p) && c in t'
      ensures SameEffect(Walk(sem, t', t'[c], p, d), Asked(fc, p)[c])
    {
      InboundAsAsked(sem, t', fc, p, d);
      OutboundAsAsked(sem, t', fc, p, d);
    }
  }

  function HookedBy(t: Table, x: Half, y: Half): Table
    requires x.hook in t && y.hook in t
  {
    t[x.hook := t[x.hook] + (if x.jumpSeen then [] else [x.jump])]
     [y.hook := t[y.hook] + (if y.jumpSeen then [] else [y.jump])]
  }

  lemma {:induction false} CompleteSameBut(t: Table, x: Half, y: Half, asked: map<string, Decision>)
    requires Independent(x, y) && x.hook in t && y.hook in t && asked.Keys == {x.chain, y.chain}
    ensures var t' := Complete(Complete(t, x), y);
            && SameBut(HookedBy(t, x, y), asked, t') && t'[x.chain] == x.rules && t'[y.chain] == y.rules
  {}

  lemma {:induction false} InstalledSameBut(t: Table, seen: Seen, fc: FirewallConfiguration, p: Packet)
    requires PREROUTING in t && OUTPUT in t
    ensures var t' := Installed(t, fc, seen.preroutingJump, seen.outputJump);
            && SameBut(Hooked(t, seen), Asked(fc, p), t')
            && t'[REDIRECT_CHAIN] == InboundRules(fc) && t'[OUTPUT_CHAIN] == OutboundRules(fc)
  {
    var places := Seen(false, false, seen.preroutingJump, seen.outputJump);
    HalvesValid(fc, places);
    CompleteSameBut(t, Inbound(fc, places), Outbound(fc, places), Asked(fc, p));
  }

  /** At every rule list, the two hooks and all other chains included: after a configuration packets
      walk the rules that were there, with the jumps appended to the hooks unless they were seen, and
      with every jump to one of our chains, wherever it stands and whatever its condition, having the
      effect the configuration asks for. */
  lemma {:induction false} HooksMeanConfiguration(
    sem: Foreigns, t: Table, seen: Seen, fc: FirewallConfiguration, rules: seq<Rule>, p: Packet, depth: nat)
    requires Sees(t, seen) && Accepts(fc)
    ensures Walk(sem, Configure(t, seen, fc).table, rules, p, depth) ==
            Meant(sem, Hooked(t, seen), Asked(fc, p), rules, p, depth)
    ensures forall c <- Hooked(t, seen).Keys - OWN_CHAINS ::
              c in Configure(t, seen, fc).table && Configure(t, seen, fc).table[c] == Hooked(t, seen)[c]
  {
    ConfigureSucceedsExactly(t, seen, fc);
    InstalledSameBut(t, seen, fc, p);
    InstalledAsAsked(sem, Configure(t, seen, fc).table, fc, p);
    WalkIsMeant(sem, Hooked(t, seen), Asked(fc, p), Configure(t, seen, fc).table, rules, p, depth);
  }

  lemma {:induction false} MeantConcat(
    sem: Foreigns, t: Table, asked: map<string, Decision>, a: seq<Rule>, b: seq<Rule>, p: Packet, depth: nat)
    ensures Meant(sem, t, asked, a + b, p, depth) ==
            var first := Meant(sem, t, asked, a, p, depth);
            if first.RanOff? then Meant(sem, t, asked, b, p, depth) else first
  {
    if a == [] {
      assert a + b == b;
    } else {
      assert (a + b)[1..] == a[1..] + b;
      MeantConcat(sem, t, asked, a[1..], b, p, depth);
    }
  }

  /** What a hook does with a packet when rules `a`, then an unconditional jump, then rules `b` see it:
      `a` first, then the redirection asked for, then `b`. */
  ghost function HookDecision(
    sem: Foreigns, t: Table, asked: map<string, Decision>, a: seq<Rule>, redirection: Option<int>, b: seq<Rule>,
    p: Packet, depth: nat): Decision
  {
    var first := Meant(sem, t, asked, a, p, depth);
    if !first.RanOff? then first
    else if redirection.Some? then Redirected(redirection.value)
    else Meant(sem, t, asked, b, p, depth)
  }

  predicate Unconditional(r: Rule, chain: string) {
    r.target == Jump(chain) && forall m <- r.matches :: m.Comment?
  }

  lemma {:induction false} MeantThroughJump(
    sem: Foreigns, t: Table, asked: map<string, Decision>, a: seq<Rule>, jump: Rule, b: seq<Rule>, chain: string,
    redirection: Option<int>, p: Packet, depth: nat)
    requires chain in asked && asked[chain] == DecisionOf(redirection) && Unconditional(jump, chain)
    ensures Meant(sem, t, asked, a + [jump] + b, p, depth + 1) ==
            HookDecision(sem, t, asked, a, redirection, b, p, depth + 1)
  {
    MeantConcat(sem, t, asked, a + [jump], b, p, depth + 1);
    MeantConcat(sem, t, asked, a, [jump], p, depth + 1);
    assert HitsAll(sem, jump, p);
    assert Meant(sem, t, asked, [jump][1..], p, depth + 1) == RanOff;
  }

  /** At the inbound hook: an unconditional jump, the one just appended or one that was there, sends the
      packets that no rule before it decides to where the configuration asks, and the others on to
      the rules after it. */
  lemma {:induction false} PreroutingMeans(
    sem: Foreigns, t: Table, seen: Seen, fc: FirewallConfiguration,
    a: seq<Rule>, jump: Rule, b: seq<Rule>, p: Packet, depth: nat)
    requires Sees(t, seen) && Accepts(fc) && Unconditional(jump, REDIRECT_CHAIN)
    requires Hooked(t, seen)[PREROUTING] == a + [jump] + b
    ensures var t' := Configure(t, seen, fc).table;
            && PREROUTING in t'
            && Walk(sem, t', t'[PREROUTING], p, depth + 1) ==
               HookDecision(sem, Hooked(t, seen), Asked(fc, p), a, InboundVerdict(fc, p), b, p, depth + 1)
  {
    HooksMeanConfiguration(sem, t, seen, fc, a + [jump] + b, p, depth + 1);
    HooksKept(t, seen, fc);
    MeantThroughJump(sem, Hooked(t, seen), Asked(fc, p), a, jump, b, REDIRECT_CHAIN, InboundVerdict(fc, p), p, depth);
  }

  /** The same at the outbound hook. */
  lemma {:induction false} OutputMeans(
    sem: Foreigns, t: Table, seen: Seen, fc: FirewallConfiguration,
    a: seq<Rule>, jump: Rule, b: seq<Rule>, p: Packet, depth: nat)
    requires Sees(t, seen) && Accepts(fc) && Unconditional(jump, OUTPUT_CHAIN)
    requires Hooked(t, seen)[OUTPUT] == a + [jump] + b
    ensures var t' := Configure(t, seen, fc).table;
            && OUTPUT in t'
            && Walk(sem, t', t'[OUTPUT], p, depth + 1) ==
               HookDecision(sem, Hooked(t, seen), Asked(fc, p), a, OutboundVerdict(fc, p), b, p, depth + 1)
  {
    HooksMeanConfiguration(sem, t, seen, fc, a + [jump] + b, p, depth + 1);
    HooksKept(t, seen, fc);
    MeantThroughJump(sem, Hooked(t, seen), Asked(fc, p), a, jump, b, OUTPUT_CHAIN, OutboundVerdict(fc, p), p, depth);
  }

  lemma {:induction false} HooksKept(t: Table, seen: Seen, fc: FirewallConfiguration)
    requires Sees(t, seen) && Accepts(fc)
    ensures var t' := Configure(t, seen, fc).table;
            && PREROUTING in t' && t'[PREROUTING] == Hooked(t, seen)[PREROUTING]
            && OUTPUT in t' && t'[OUTPUT] == Hooked(t, seen)[OUTPUT]
  {
    ConfigureSucceedsExactly(t, seen, fc);
  }

  // ---- Rules that never come to us -------------------------------------------------------

  const TOUCHED: set<string> := OWN_CHAINS + {PREROUTING, OUTPUT}

  /** All jumps from the rules, and from the chains in `reach`, stay in `reach`, which holds neither
      our chains nor the two hooks. */
  ghost predicate StaysIn(t: Table, rules: seq<Rule>, reach: set<string>) {
    && reach <= t.Keys - TOUCHED
    && (forall r <- rules :: r.target.Jump? ==> r.target.chain in reach)
    && (forall c <- reach, r <- t[c] :: r.target.Jump? ==> r.target.chain in reach)
  }

  /** A packet that walks the rules never comes to our chains or a hook. */
  ghost predicate Elsewhere(t: Table, rules: seq<Rule>) {
    exists reach :: StaysIn(t, rules, reach)
  }

  lemma {:induction false} SameElsewhere(
    sem: Foreigns, t: Table, t': Table, rules: seq<Rule>, p: Packet, depth: nat)
    requires Elsewhere(t, rules) && forall c <- t.Keys - TOUCHED :: c in t' && t'[c] == t[c]
    ensures Walk(sem, t', rules, p, depth) == Walk(sem, t, rules, p, depth)
  {
    var reach :| StaysIn(t, rules, reach);
    WalkFrame(sem, t, t', reach, rules, p, depth);
  }

  lemma {:induction false} MeantFrame(
    sem: Foreigns, t: Table, t': Table, asked: map<string, Decision>, reach: set<string>, rules: seq<Rule>,
    p: Packet, depth: nat)
    requires StaysIn(t, rules, reach) && asked.Keys <= TOUCHED
    requires forall c <- t.Keys - TOUCHED :: c in t' && t'[c] == t[c]
    ensures Meant(sem, t', asked, rules, p, depth) == Walk(sem, t, rules, p, depth)
    decreases depth, |rules|
  {
    if rules != [] {
      MeantFrame(sem, t, t', asked, reach, rules[1..], p, depth);
      if rules[0].target.Jump? && depth > 0 {
        MeantFrame(sem, t, t', asked, reach, t[rules[0].target.chain], p, depth - 1);
      }
    }
  }

  /** Rules that never come to us mean what they did before the run. */
  lemma {:induction false} MeantElsewhere(
    sem: Foreigns, t: Table, seen: Seen, fc: FirewallConfiguration, rules: seq<Rule>, p: Packet, depth: nat)
    requires PREROUTING in t && OUTPUT in t && Elsewhere(t, rules)
    ensures Meant(sem, Hooked(t, seen), Asked(fc, p), rules, p, depth) == Walk(sem, t, rules, p, depth)
  {
    var reach :| StaysIn(t, rules, reach);
    MeantFrame(sem, t, Hooked(t, seen), Asked(fc, p), reach, rules, p, depth);
  }

  /** A hook that only reads as jumping to us gets no jump, and treats every packet as before the
      run. */
  lemma {:induction false} MisreadHookIsBypassed(
    sem: Foreigns, t: Table, seen: Seen, fc: FirewallConfiguration, p: Packet, depth: nat)
    requires Sees(t, seen) && Accepts(fc)
    ensures var t' := Configure(t, seen, fc).table;
            && PREROUTING in t' && OUTPUT in t'
            && (ReadsJump(t[PREROUTING], REDIRECT_CHAIN) && Elsewhere(t, t[PREROUTING]) ==>
                  Walk(sem, t', t'[PREROUTING], p, depth) == Walk(sem, t, t[PREROUTING], p, depth))
            && (ReadsJump(t[OUTPUT], OUTPUT_CHAIN) && Elsewhere(t, t[OUTPUT]) ==>
                  Walk(sem, t', t'[OUTPUT], p, depth) == Walk(sem, t, t[OUTPUT], p, depth))
  {
    ConfigureSucceedsExactly(t, seen, fc);
    var t' := Configure(t, seen, fc).table;
    assert t[PREROUTING] + [] == t[PREROUTING] && t[OUTPUT] + [] == t[OUTPUT];
    if Elsewhere(t, t[PREROUTING]) { SameElsewhere(sem, t, t', t[PREROUTING], p, depth); }
    if Elsewhere(t, t[OUTPUT]) { SameElsewhere(sem, t, t', t[OUTPUT], p, depth); }
  }

  /** Until its chain is complete, a hook whose packets did not come to us treats every packet exactly
      as it did before the run. */
  lemma {:induction false} HookUntouchedUntilComplete(
    sem: Foreigns, t: Table, seen: Seen, fc: FirewallConfiguration, k: nat, p: Packet, depth: nat)
    requires Sees(t, seen)
    requires k <= |Compile(fc, seen)| && ExecAll(t, Compile(fc, seen)[..k]).ok
    ensures var tk := ExecAll(t, Compile(fc, seen)[..k]).table;
            && PREROUTING in tk && OUTPUT in tk
            && (Elsewhere(t, t[PREROUTING]) && (REDIRECT_CHAIN !in tk || tk[REDIRECT_CHAIN] != InboundRules(fc)) ==>
                  Walk(sem, tk, tk[PREROUTING], p, depth) == Walk(sem, t, t[PREROUTING], p, depth))
            && (Elsewhere(t, t[OUTPUT]) && (OUTPUT_CHAIN !in tk || tk[OUTPUT_CHAIN] != OutboundRules(fc)) ==>
                  Walk(sem, tk, tk[OUTPUT], p, depth) == Walk(sem, t, t[OUTPUT], p, depth))
  {
    var x, y := Inbound(fc, seen), Outbound(fc, seen);
    HalvesValid(fc, seen);
    PrefixLeavesSnapshot(t, x, y, k);
    SnapshotShape(t, x, y, k);
    var tk := Snapshot(t, x, y, k);
    if Elsewhere(t, t[PREROUTING]) { SameElsewhere(sem, t, tk, t[PREROUTING], p, depth); }
    if Elsewhere(t, t[OUTPUT]) { SameElsewhere(sem, t, tk, t[OUTPUT], p, depth); }
  }

  // ---- From where packets enter ---------------------------------------------------------------------------

  /** Arriving packets: the rules that were at their entry decide first, then the inbound verdict. */
  lemma {:induction false} ArrivingMeans(
    sem: Foreigns, t: Table, seen: Seen, fc: FirewallConfiguration, p: Packet, depth: nat)
    requires Sees(t, seen) && Accepts(fc) && !seen.preroutingJump
    ensures Entry(Arriving) in t && Entry(Arriving) in Configure(t, seen, fc).table
    ensures Traverse(sem, Configure(t, seen, fc).table, Arriving, p, depth + 1) ==
            HookDecision(sem, Hooked(t, seen), Asked(fc, p),
                         t[Entry(Arriving)], InboundVerdict(fc, p), [], p, depth + 1)
  {
    HooksAreEntries();
    assert t[PREROUTING] + [PREROUTING_JUMP] == t[PREROUTING] + [PREROUTING_JUMP] + [];
    PreroutingMeans(sem, t, seen, fc, t[PREROUTING], PREROUTING_JUMP, [], p, depth);
  }

  /** Sent packets: the rules that were at their entry decide first, then the outbound verdict. */
  lemma {:induction false} SentMeans(
    sem: Foreigns, t: Table, seen: Seen, fc: FirewallConfiguration, p: Packet, depth: nat)
    requires Sees(t, seen) && Accepts(fc) && !seen.outputJump
    ensures Entry(Sent) in t && Entry(Sent) in Configure(t, seen, fc).table
    ensures Traverse(sem, Configure(t, seen, fc).table, Sent, p, depth + 1) ==
            HookDecision(sem, Hooked(t, seen), Asked(fc, p),
                         t[Entry(Sent)], OutboundVerdict(fc, p), [], p, depth + 1)
  {
    HooksAreEntries();
    assert t[OUTPUT] + [OUTPUT_JUMP] == t[OUTPUT] + [OUTPUT_JUMP] + [];
    OutputMeans(sem, t, seen, fc, t[OUTPUT], OUTPUT_JUMP, [], p, depth);
  }

  /** In a fresh network namespace, configuring leaves a table that redirects every arriving packet
      exactly as the inbound verdict says, and every sent packet exactly as the outbound one. */
  lemma {:induction false} FreshNamespaceMeans(
    sem: Foreigns, seen: Seen, fc: FirewallConfiguration, p: Packet, depth: nat)
    requires Sees(EMPTY_NAT, seen) && Accepts(fc)
    ensures var t' := Configure(EMPTY_NAT, seen, fc).table;
            && Entry(Arriving) in t' && Entry(Sent) in t'
            && Redirection(Traverse(sem, t', Arriving, p, depth + 1)) == InboundVerdict(fc, p)
            && Redirection(Traverse(sem, t', Sent, p, depth + 1)) == OutboundVerdict(fc, p)
  {
    HooksAreEntries();
    assert EMPTY_NAT[PREROUTING] == [] && EMPTY_NAT[OUTPUT] == [];
    ArrivingMeans(sem, EMPTY_NAT, seen, fc, p, depth);
    SentMeans(sem, EMPTY_NAT, seen, fc, p, depth);
  }
}

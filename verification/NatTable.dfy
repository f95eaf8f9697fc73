/** The kernel's nat table: what one iptables command does to it, and what a packet that
    traverses a chain meets. The commands are the ones pkg/iptables/iptables.go builds. */
module NatTable {
  import opened Text
  import opened PortRanges
  import opened Multiport

  // ---- Packets and subnets ---------------------------------------------------------------

  datatype Protocol = Tcp | Udp | OtherProtocol

  /** `uid` and `gid` are those of the sending socket, for a packet that has one. */
  datatype Packet = Packet(
    protocol: Protocol, bits: nat, src: nat, dport: int, uid: Option<nat>, gid: Option<nat>,
    outIface: string)

  /** A subnet as configured (`text`) and as read: an address of `bits` bits and a prefix
      length. */
  datatype Subnet = Subnet(text: string, bits: nat, addr: nat, prefixLen: nat)

  function Power2(k: nat): (p: nat)
    ensures p >= 1
  {
    if k == 0 then 1 else 2 * Power2(k - 1)
  }

  /** The leading bits of an address: all but the last `low`. */
  function Leading(addr: nat, low: nat): int {
    addr / Power2(low)
  }

  /** RFC 4632, section 3.1: an address belongs to a prefix when the leading `prefixLen` bits
      of both agree; the remaining bits of the configured address do not matter. */
  predicate InSubnet(s: Subnet, bits: nat, addr: nat) {
    && bits == s.bits && s.prefixLen <= s.bits
    && Leading(addr, s.bits - s.prefixLen) == Leading(s.addr, s.bits - s.prefixLen)
  }

  /** The `q`-th run of `size` addresses. */
  predicate InBlock(addr: nat, size: nat, q: int) { q * size <= addr < q * size + size }

  /** The addresses of a prefix are exactly the run of 2^(bits - prefixLen) addresses that starts
      at its network address. */
  lemma {:induction false} SubnetIsRange(s: Subnet, addr: nat)
    requires s.prefixLen <= s.bits
    ensures var low := s.bits - s.prefixLen;
            InSubnet(s, s.bits, addr) <==> InBlock(addr, Power2(low), Leading(s.addr, low))
  {
    LeadingIsBlock(addr, s.bits - s.prefixLen, Leading(s.addr, s.bits - s.prefixLen));
  }

  lemma {:induction false} LeadingIsBlock(addr: nat, low: nat, q: int)
    ensures Leading(addr, low) == q <==> InBlock(addr, Power2(low), q)
  {
    var d := Leading(addr, low);
    assert InBlock(addr, Power2(low), d);
    if q < d {
      ProductsApart(q, d, Power2(low));
    } else if d < q {
      ProductsApart(d, q, Power2(low));
    }
  }

  lemma {:induction false} ProductsApart(a: int, b: int, size: nat)
    requires a < b
    ensures a * size + size <= b * size
  {
    assert (a + 1) * size <= b * size;
  }

  predicate OneLine(s: string) { '\n' !in s }

  // ---- Rules -----------------------------------------------------------------------------

  /** `Multiport` keeps the `--dports` argument as text. `Foreign` is any other match, known
      only by its printed form. */
  datatype Match =
    | ProtoTcp
    | OwnerUid(uid: nat)
    | OwnerGid(gid: nat)
    | OutIface(name: string)
    | MultiportDports(dports: string)
    | DestinationPort(port: int)
    | Source(subnet: Subnet)
    | Comment(comment: string)
    | Foreign(text: string)

  /** `Terminal` is any other target that ends the traversal, known by its printed form. */
  datatype Target = Return | Redirect(toPort: int) | Jump(chain: string) | Terminal(name: string)

  datatype Rule = Rule(matches: seq<Match>, target: Target)

  type Table = map<string, seq<Rule>>

  const BUILTIN: set<string> := {"PREROUTING", "INPUT", "OUTPUT", "POSTROUTING"}

  /** The nat table of a fresh network namespace. */
  const EMPTY_NAT: Table := map["PREROUTING" := [], "INPUT" := [], "OUTPUT" := [], "POSTROUTING" := []]

  predicate JumpsTo(rules: seq<Rule>, chain: string) {
    exists r <- rules :: r.target == Jump(chain)
  }

  predicate Referenced(t: Table, chain: string) {
    exists c <- t.Keys :: JumpsTo(t[c], chain)
  }

  // ---- Commands --------------------------------------------------------------------------

  datatype Command =
    | NewChain(chain: string)              // -N
    | FlushChain(chain: string)            // -F
    | DeleteChain(chain: string)           // -X
    | Append(chain: string, rule: Rule)    // -A
    | Delete(chain: string, rule: Rule)    // -D

  /** The arguments iptables accepts for a match. */
  predicate MatchOk(m: Match) {
    match m
    case MultiportDports(text) =>
      ReadDports(text).Some? && PortReferences(text) <= 15
    case DestinationPort(port) => IsValidPort(port)
    case Source(s) => s.prefixLen <= s.bits && OneLine(s.text)
    case _ => true
  }

  predicate TargetOk(t: Table, target: Target) {
    match target
    case Redirect(port) => IsValidPort(port)
    case Jump(c) => c in t && c !in BUILTIN
    case _ => true
  }

  predicate RuleOk(t: Table, r: Rule) {
    TargetOk(t, r.target) && forall m <- r.matches :: MatchOk(m)
  }

  /** Removes the first occurrence of a rule. */
  function Without(rules: seq<Rule>, r: Rule): seq<Rule> {
    if rules == [] then []
    else if rules[0] == r then rules[1..]
    else [rules[0]] + Without(rules[1..], r)
  }

  /** One command: the table after it, or None when iptables refuses and changes nothing. */
  function Exec(t: Table, cmd: Command): Option<Table> {
    match cmd
    case NewChain(c) => if c in t then None else Some(t[c := []])
    case FlushChain(c) => if c in t then Some(t[c := []]) else None
    case DeleteChain(c) =>
      if c in t && c !in BUILTIN && t[c] == [] && !Referenced(t, c) then Some(t - {c}) else None
    case Append(c, r) => if c in t && RuleOk(t, r) then Some(t[c := t[c] + [r]]) else None
    case Delete(c, r) => if c in t && r in t[c] then Some(t[c := Without(t[c], r)]) else None
  }

  /** The table when a sequence of commands ends, and whether it ran to its end: with
      ContinueOnError false the first failure stops it. */
  datatype Outcome = Outcome(table: Table, ok: bool)

  function ExecAll(t: Table, cmds: seq<Command>): Outcome
    decreases |cmds|
  {
    if cmds == [] then Outcome(t, true)
    else
      match Exec(t, cmds[0])
      case None => Outcome(t, false)
      case Some(t') => ExecAll(t', cmds[1..])
  }

  lemma {:induction false} ExecAllConcat(t: Table, a: seq<Command>, b: seq<Command>)
    ensures ExecAll(t, a + b) ==
            if ExecAll(t, a).ok then ExecAll(ExecAll(t, a).table, b) else ExecAll(t, a)
    decreases |a|
  {
    if a == [] {
      assert a + b == b;
    } else {
      assert (a + b)[1..] == a[1..] + b;
      if Exec(t, a[0]).Some? {
        ExecAllConcat(Exec(t, a[0]).value, a[1..], b);
      }
    }
  }

  lemma {:induction false} ExecAllNext(t: Table, cmds: seq<Command>, k: nat)
    requires k < |cmds|
    ensures ExecAll(t, cmds[..k + 1]) ==
            var before := ExecAll(t, cmds[..k]);
            if !before.ok then before
            else
              match Exec(before.table, cmds[k])
              case None => Outcome(before.table, false)
              case Some(t') => Outcome(t', true)
  {
    assert cmds[..k + 1] == cmds[..k] + [cmds[k]];
    ExecAllConcat(t, cmds[..k], [cmds[k]]);
    var before := ExecAll(t, cmds[..k]);
    if before.ok && Exec(before.table, cmds[k]).Some? {
      assert ExecAll(Exec(before.table, cmds[k]).value, [cmds[k]][1..]).ok;
    }
  }

  lemma {:induction false} WithoutLast(rules: seq<Rule>, r: Rule)
    requires r !in rules
    ensures Without(rules + [r], r) == rules
  {
    if rules == [] {
      assert (rules + [r])[1..] == [];
    } else {
      assert (rules + [r])[1..] == rules[1..] + [r];
      WithoutLast(rules[1..], r);
    }
  }

  // ---- Traversal -------------------------------------------------------------------------

  /** What a packet meets in a rule list: no rule decided, an explicit RETURN, a redirection,
      or another verdict. A built-in chain applies its policy in the first two cases, a
      user chain hands the packet back to the rule after the jump. */
  datatype Decision = RanOff | Returned | Redirected(port: int) | Decided(name: string)

  /** The interpretation of matches this model does not read. */
  type Foreigns = (string, Packet) -> bool

  predicate Hits(sem: Foreigns, m: Match, p: Packet) {
    match m
    case ProtoTcp => p.protocol == Tcp
    case OwnerUid(uid) => p.uid == Some(uid)
    case OwnerGid(gid) => p.gid == Some(gid)
    case OutIface(name) => p.outIface == name
    case MultiportDports(text) => p.protocol != OtherProtocol && TextCovers(text, p.dport)
    case DestinationPort(port) => p.protocol != OtherProtocol && p.dport == port
    case Source(s) => InSubnet(s, p.bits, p.src)
    case Comment(_) => true
    case Foreign(text) => sem(text, p)
  }

  predicate HitsAll(sem: Foreigns, r: Rule, p: Packet) {
    forall m <- r.matches :: Hits(sem, m, p)
  }

  /** First match decides; a jump goes one level deeper and a packet that exceeds the jump
      stack is dropped. */
  function Walk(sem: Foreigns, t: Table, rules: seq<Rule>, p: Packet, depth: nat): Decision
    decreases depth, |rules|
  {
    if rules == [] then RanOff
    else if !HitsAll(sem, rules[0], p) then Walk(sem, t, rules[1..], p, depth)
    else
      match rules[0].target
      case Return => Returned
      case Redirect(port) => Redirected(port)
      case Terminal(name) => Decided(name)
      case Jump(c) =>
        if depth == 0 || c !in t then Decided("DROP")
        else
          var inner := Walk(sem, t, t[c], p, depth - 1);
          if inner.RanOff? || inner.Returned? then Walk(sem, t, rules[1..], p, depth) else inner
  }

  /** The packets the nat table is asked about: those that have just arrived at an interface, and those
      a process of the host sends. The kernel hands each kind to its own built-in chain. */
  datatype Origin = Arriving | Sent

  function Entry(origin: Origin): string {
    match origin
    case Arriving => "PREROUTING"
    case Sent => "OUTPUT"
  }

  /** What the table does with a packet. */
  function Traverse(sem: Foreigns, t: Table, origin: Origin, p: Packet, depth: nat): Decision
    requires Entry(origin) in t
  {
    Walk(sem, t, t[Entry(origin)], p, depth)
  }

  lemma {:induction false} WalkConcat(
    sem: Foreigns, t: Table, a: seq<Rule>, b: seq<Rule>, p: Packet, depth: nat)
    ensures Walk(sem, t, a + b, p, depth) ==
            var first := Walk(sem, t, a, p, depth);
            if first.RanOff? then Walk(sem, t, b, p, depth) else first
  {
    if a == [] {
      assert a + b == b;
    } else {
      assert (a + b)[1..] == a[1..] + b;
      WalkConcat(sem, t, a[1..], b, p, depth);
    }
  }

  /** Rules that all return, or all redirect to one port, act as one rule that matches when any
      of them does. */
  lemma {:induction false} WalkUniform(
    sem: Foreigns, t: Table, rules: seq<Rule>, target: Target, p: Packet, depth: nat)
    requires target.Return? || target.Redirect?
    requires forall r <- rules :: r.target == target
    ensures Walk(sem, t, rules, p, depth) ==
            if !(exists r <- rules :: HitsAll(sem, r, p)) then RanOff
            else if target.Return? then Returned
            else Redirected(target.toPort)
  {
    if rules != [] {
      WalkUniform(sem, t, rules[1..], target, p, depth);
      assert rules == [rules[0]] + rules[1..];
    }
  }

  /** A traversal depends only on the chains it can jump to. */
  lemma {:induction false} WalkFrame(
    sem: Foreigns, t: Table, t': Table, reach: set<string>, rules: seq<Rule>, p: Packet, depth: nat)
    requires forall c <- reach :: c in t && c in t' && t[c] == t'[c]
    requires forall c <- reach, r <- t[c] :: r.target.Jump? ==> r.target.chain in reach
    requires forall r <- rules :: r.target.Jump? ==> r.target.chain in reach
    ensures Walk(sem, t, rules, p, depth) == Walk(sem, t', rules, p, depth)
    decreases depth, |rules|
  {
    if rules != [] {
      WalkFrame(sem, t, t', reach, rules[1..], p, depth);
      if rules[0].target.Jump? && depth > 0 {
        assert rules[0].target.chain in reach;
        WalkFrame(sem, t, t', reach, t[rules[0].target.chain], p, depth - 1);
      }
    }
  }
}

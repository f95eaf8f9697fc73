/** The text iptables-save prints for the nat table, and the four patterns of
    pkg/iptables/iptables.go that read it. */
module SavedTable {
  import opened Text
  import opened NatTable

  // ---- Printing --------------------------------------------------------------------------

  function MatchText(m: Match): string {
    match m
    case ProtoTcp => "-p tcp"
    case OwnerUid(uid) => "-m owner --uid-owner " + Itoa(uid)
    case OwnerGid(gid) => "-m owner --gid-owner " + Itoa(gid)
    case OutIface(name) => "-o " + name
    case MultiportDports(text) => "-m multiport --dports " + text
    case DestinationPort(port) => "-m tcp --dport " + IntText(port)
    case Source(s) => "-s " + s.text
    case Comment(text) => "-m comment --comment \"" + text + "\""
    case Foreign(text) => text
  }

  function TargetText(target: Target): string {
    match target
    case Return => "RETURN"
    case Redirect(port) => "REDIRECT --to-ports " + IntText(port)
    case Jump(c) => c
    case Terminal(name) => name
  }

  /** The matches of a rule, each followed by a space. */
  function MatchesText(matches: seq<Match>): string {
    if matches == [] then "" else MatchesText(matches[..|matches| - 1]) + MatchText(matches[|matches| - 1]) + " "
  }

  function RuleText(r: Rule): string {
    MatchesText(r.matches) + "-j " + TargetText(r.target)
  }

  function RuleLine(chain: string, r: Rule): string {
    "-A " + chain + " " + RuleText(r)
  }

  function ChainLine(chain: string): string {
    ":" + chain + " " + (if chain in BUILTIN then "ACCEPT [0:0]" else "- [0:0]")
  }

  function ChainLines(order: seq<string>): (lines: seq<string>)
    ensures |lines| == |order|
  {
    seq(|order|, k requires 0 <= k < |order| => ChainLine(order[k]))
  }

  function RuleLinesOf(chain: string, rules: seq<Rule>): (lines: seq<string>)
    ensures |lines| == |rules|
  {
    seq(|rules|, k requires 0 <= k < |rules| => RuleLine(chain, rules[k]))
  }

  function RuleLines(t: Table, order: seq<string>): seq<string>
    requires forall c <- order :: c in t
  {
    if order == [] then []
    else RuleLines(t, order[..|order| - 1]) + RuleLinesOf(order[|order| - 1], t[order[|order| - 1]])
  }

  /** `order` lists every chain of the table once. */
  ghost predicate IsOrder(order: seq<string>, chains: set<string>) {
    && (forall c :: c in order <==> c in chains)
    && (forall i, j :: 0 <= i < j < |order| ==> order[i] != order[j])
  }

  function TableLines(t: Table, order: seq<string>): seq<string>
    requires forall c <- order :: c in t
  {
    ["# Generated by iptables-save", "*nat"] + ChainLines(order) + RuleLines(t, order)
    + ["COMMIT", "# Completed", ""]
  }

  /** What `iptables-save -t nat` prints. */
  function Print(t: Table, order: seq<string>): string
    requires forall c <- order :: c in t
  {
    Join(TableLines(t, order), '\n')
  }

  // ---- The patterns ----------------------------------------------------------------------

  /** Some line matches `^:chain `. In the multiline mode `^` matches at the start of any line
      and no pattern below can match across a line end. */
  predicate ChainPattern(text: string, chain: string) {
    exists line <- Split(text, '\n') :: HasPrefix(line, ":" + chain + " ")
  }

  /** Some line matches `^-A hook (.+ )?-j target`. */
  predicate JumpPattern(text: string, hook: string, target: string) {
    exists line <- Split(text, '\n') ::
      HasPrefix(line, "-A " + hook + " ") && ReadsAsJump(line[|hook| + 4..], target)
  }

  /** `(.+ )?-j target` matches at the start of `s`: the optional group is absent or at least
      two characters ending in a space, and nothing anchors the end. */
  predicate ReadsAsJump(s: string, target: string) {
    exists j | 0 <= j <= |s| :: JumpTextAt(s, target, j)
  }

  predicate JumpTextAt(s: string, target: string, j: int) {
    OccursAt(s, j, "-j " + target) && (j == 0 || (j >= 2 && s[j - 1] == ' '))
  }

  /** The expression `^start(.+ )?jump` matches the line: the optional group is empty, or one or more
      characters and a space. */
  ghost predicate GroupedMatch(line: string, start: string, jump: string) {
    exists group, rest :: line == start + group + jump + rest && OptionalGroup(group)
  }

  predicate OptionalGroup(group: string) {
    group == "" || (|group| >= 2 && group[|group| - 1] == ' ')
  }

  lemma {:induction false} SplitAtOccurrence(s: string, jump: string, j: nat)
    requires OccursAt(s, j, jump)
    ensures j + |jump| <= |s| && s == s[..j] + (jump + s[j + |jump|..])
  {
    assert s[j..] == jump + s[j..][|jump|..];
    assert s[j..][|jump|..] == s[j + |jump|..];
  }

  lemma {:induction false} GroupBefore(line: string, start: string, jump: string, j: nat)
    requires HasPrefix(line, start) && OccursAt(line[|start|..], j, jump)
    requires OptionalGroup(line[|start|..][..j])
    ensures GroupedMatch(line, start, jump)
  {
    var s := line[|start|..];
    SplitAtOccurrence(s, jump, j);
    var group, rest := s[..j], s[j + |jump|..];
    Reassociate(start, group, jump, rest);
    assert line == start + s;
    assert line == start + group + jump + rest;
  }

  lemma {:induction false} Reassociate(a: string, b: string, c: string, d: string)
    ensures a + (b + (c + d)) == a + b + c + d
  {}

  lemma {:induction false} GroupFound(line: string, start: string, jump: string, group: string, rest: string)
    requires line == start + group + jump + rest
    ensures HasPrefix(line, start) && OccursAt(line[|start|..], |group|, jump)
    ensures |group| <= |line[|start|..]| && line[|start|..][..|group|] == group
  {
    var tail := jump + rest;
    assert line == start + (group + tail);
    assert line[|start|..] == group + tail;
    assert (group + tail)[|group|..] == tail;
  }

  /** The jump pattern is that expression with the hook and the jump in it. */
  lemma {:induction false} JumpPatternMatches(line: string, hook: string, target: string)
    ensures HasPrefix(line, "-A " + hook + " ") && ReadsAsJump(line[|hook| + 4..], target) <==>
            GroupedMatch(line, "-A " + hook + " ", "-j " + target)
  {
    var start, jump := "-A " + hook + " ", "-j " + target;
    if HasPrefix(line, start) && ReadsAsJump(line[|start|..], target) {
      var j: nat :| j <= |line[|start|..]| && JumpTextAt(line[|start|..], target, j);
      GroupBefore(line, start, jump, j);
    }
    if GroupedMatch(line, start, jump) {
      var group, rest :| line == start + group + jump + rest && OptionalGroup(group);
      GroupFound(line, start, jump, group, rest);
      assert JumpTextAt(line[|start|..], target, |group|);
    }
  }

  lemma {:induction false} JumpPatternByLine(text: string, hook: string, target: string)
    ensures JumpPattern(text, hook, target) <==>
            exists line <- Split(text, '\n') :: GroupedMatch(line, "-A " + hook + " ", "-j " + target)
  {
    forall line <- Split(text, '\n')
      ensures HasPrefix(line, "-A " + hook + " ") && ReadsAsJump(line[|hook| + 4..], target) <==>
              GroupedMatch(line, "-A " + hook + " ", "-j " + target)
    {
      JumpPatternMatches(line, hook, target);
    }
  }

  // ---- Line by line ----------------------------------------------------------------------

  predicate IsName(s: string) { s != "" && ' ' !in s && '\n' !in s }

  predicate MatchPrintable(m: Match) {
    match m
    case OutIface(name) => OneLine(name)
    case MultiportDports(text) => OneLine(text)
    case Source(s) => OneLine(s.text)
    case Comment(text) => OneLine(text)
    case Foreign(text) => OneLine(text) && text != ""
    case _ => true
  }

  predicate RulePrintable(r: Rule) {
    && (forall m <- r.matches :: MatchPrintable(m))
    && (r.target.Jump? ==> IsName(r.target.chain))
    && (r.target.Terminal? ==> OneLine(r.target.name))
  }

  /** The table holds no name or text that would break a line of the printed form. */
  ghost predicate Printable(t: Table) {
    forall c <- t.Keys :: IsName(c) && forall r <- t[c] :: RulePrintable(r)
  }

  lemma {:induction false} NumeralOneLine(i: int)
    ensures OneLine(IntText(i))
  {}

  lemma {:induction false} MatchTextShape(m: Match)
    requires MatchPrintable(m)
    ensures OneLine(MatchText(m)) && MatchText(m) != ""
  {}

  lemma {:induction false} MatchesTextShape(matches: seq<Match>)
    requires forall m <- matches :: MatchPrintable(m)
    ensures OneLine(MatchesText(matches))
    ensures matches != [] ==>
              |MatchesText(matches)| >= 2 && MatchesText(matches)[|MatchesText(matches)| - 1] == ' '
  {
    if matches != [] {
      MatchesTextShape(matches[..|matches| - 1]);
      MatchTextShape(matches[|matches| - 1]);
    }
  }

  lemma {:induction false} RuleLineOneLine(c: string, r: Rule)
    requires IsName(c) && RulePrintable(r)
    ensures OneLine(RuleLine(c, r))
  {
    MatchesTextShape(r.matches);
    if r.target.Redirect? { NumeralOneLine(r.target.toPort); }
    assert OneLine(TargetText(r.target));
  }

  lemma {:induction false} RuleLinesOfOneLine(c: string, rules: seq<Rule>)
    requires IsName(c) && forall r <- rules :: RulePrintable(r)
    ensures forall line <- RuleLinesOf(c, rules) :: OneLine(line)
  {
    forall k | 0 <= k < |rules| ensures OneLine(RuleLinesOf(c, rules)[k]) {
      RuleLineOneLine(c, rules[k]);
    }
  }

  lemma {:induction false} LinesOneLine(t: Table, order: seq<string>)
    requires Printable(t) && forall c <- order :: c in t
    ensures forall line <- RuleLines(t, order) :: OneLine(line)
  {
    if order != [] {
      LinesOneLine(t, order[..|order| - 1]);
      RuleLinesOfOneLine(order[|order| - 1], t[order[|order| - 1]]);
    }
  }

  lemma {:induction false} ChainLinesOneLine(order: seq<string>)
    requires forall c <- order :: IsName(c)
    ensures forall line <- ChainLines(order) :: OneLine(line)
  {
    forall k | 0 <= k < |order| ensures OneLine(ChainLine(order[k])) {
      assert order[k] in order;
    }
  }

  lemma {:induction false} TableLinesOneLine(t: Table, order: seq<string>)
    requires Printable(t) && forall c <- order :: c in t
    ensures forall line <- TableLines(t, order) :: OneLine(line)
  {
    LinesOneLine(t, order);
    ChainLinesOneLine(order);
  }

  lemma {:induction false} PrintedLines(t: Table, order: seq<string>)
    requires Printable(t) && forall c <- order :: c in t
    ensures Split(Print(t, order), '\n') == TableLines(t, order)
  {
    TableLinesOneLine(t, order);
    SplitJoin(TableLines(t, order), '\n');
  }

  lemma {:induction false} RuleLinesOfMembers(c: string, rules: seq<Rule>, line: string)
    ensures line in RuleLinesOf(c, rules) <==> exists r <- rules :: line == RuleLine(c, r)
  {
    if r :| r in rules && line == RuleLine(c, r) {
      var k :| 0 <= k < |rules| && rules[k] == r;
      assert RuleLinesOf(c, rules)[k] == line;
    }
  }

  /** The line prints some rule of some listed chain. */
  ghost predicate IsRuleLine(t: Table, order: seq<string>, line: string)
    requires forall c <- order :: c in t
  {
    exists c <- order, r <- t[c] :: line == RuleLine(c, r)
  }

  lemma {:induction false} RuleLinesMembers(t: Table, order: seq<string>, line: string)
    requires forall c <- order :: c in t
    ensures line in RuleLines(t, order) <==> IsRuleLine(t, order, line)
  {
    if order != [] {
      var init, last := order[..|order| - 1], order[|order| - 1];
      RuleLinesMembers(t, init, line);
      RuleLinesOfMembers(last, t[last], line);
      assert order == init + [last];
    }
  }

  lemma {:induction false} NamePrefix(a: string, x: string, b: string, y: string)
    requires ' ' !in a && ' ' !in b && HasPrefix(a + " " + x, b + " " + y)
    ensures a == b && HasPrefix(x, y)
  {
    var s := a + " " + x;
    var q := b + " " + y;
    assert forall k :: 0 <= k < |q| ==> s[..|q|][k] == q[k];
    assert s[|a|] == ' ' && q[|b|] == ' ';
    assert |a| == |b|;
    assert a == s[..|a|] == q[..|b|] == b;
    assert x == s[|a| + 1..] && y == q[|b| + 1..];
    assert x[..|y|] == s[|a| + 1..|q|] == q[|b| + 1..];
  }

  lemma {:induction false} ChainLineMatches(c: string, chain: string)
    requires IsName(c) && IsName(chain)
    ensures HasPrefix(ChainLine(c), ":" + chain + " ") <==> c == chain
  {
    var line, wanted := ChainLine(c), ":" + chain + " ";
    var rest := if c in BUILTIN then "ACCEPT [0:0]" else "- [0:0]";
    assert line == ":" + (c + " " + rest) && wanted == ":" + (chain + " " + "");
    if HasPrefix(line, wanted) {
      DropPrefix(":", c + " " + rest, chain + " " + "");
      NamePrefix(c, rest, chain, "");
    }
  }

  lemma {:induction false} RuleLineMatches(c: string, r: Rule, hook: string)
    requires IsName(c) && IsName(hook)
    ensures HasPrefix(RuleLine(c, r), "-A " + hook + " ") <==> c == hook
    ensures c == hook ==> RuleLine(c, r)[|hook| + 4..] == RuleText(r)
  {
    var line, wanted := RuleLine(c, r), "-A " + hook + " ";
    assert line == "-A " + (c + " " + RuleText(r)) && wanted == "-A " + (hook + " " + "");
    if HasPrefix(line, wanted) {
      DropPrefix("-A ", c + " " + RuleText(r), hook + " " + "");
      NamePrefix(c, RuleText(r), hook, "");
    }
    if c == hook {
      assert line == wanted + RuleText(r);
    }
  }

  lemma {:induction false} DropPrefix(head: string, x: string, y: string)
    requires HasPrefix(head + x, head + y)
    ensures HasPrefix(x, y)
  {
    assert x == (head + x)[|head|..] && y == (head + y)[|head|..];
    assert x[..|y|] == (head + x)[..|head + y|][|head|..];
  }

  lemma {:induction false} PrefixFirst(line: string, wanted: string)
    requires HasPrefix(line, wanted) && wanted != ""
    ensures line != "" && line[0] == wanted[0]
  {}

  lemma {:induction false} TableLinesMembers(t: Table, order: seq<string>, line: string)
    requires forall c <- order :: c in t
    ensures (line in TableLines(t, order) && line != "" && line[0] == ':') <==>
            (exists c <- order :: line == ChainLine(c))
    ensures (line in TableLines(t, order) && line != "" && line[0] == '-') <==>
            IsRuleLine(t, order, line)
  {
    RuleLinesMembers(t, order, line);
    assert line in ChainLines(order) <==> exists c <- order :: line == ChainLine(c) by {
      if c :| c in order && line == ChainLine(c) {
        var k :| 0 <= k < |order| && order[k] == c;
        assert ChainLines(order)[k] == line;
      }
    }
    var fixed := ["# Generated by iptables-save", "*nat", "COMMIT", "# Completed", ""];
    assert forall l <- fixed :: l == "" || (l[0] != ':' && l[0] != '-');
    assert line in TableLines(t, order) <==>
      (line in fixed || line in ChainLines(order) || line in RuleLines(t, order));
  }

  /** The chain patterns match the printed form exactly when the chain exists. */
  lemma {:induction false} ChainPatternFaithful(t: Table, order: seq<string>, chain: string)
    requires Printable(t) && IsOrder(order, t.Keys) && IsName(chain)
    ensures ChainPattern(Print(t, order), chain) <==> chain in t
  {
    PrintedLines(t, order);
    var wanted := ":" + chain + " ";
    if chain in t {
      TableLinesMembers(t, order, ChainLine(chain));
      ChainLineMatches(chain, chain);
    }
    if line :| line in TableLines(t, order) && HasPrefix(line, wanted) {
      PrefixFirst(line, wanted);
      TableLinesMembers(t, order, line);
      var c :| c in order && line == ChainLine(c);
      ChainLineMatches(c, chain);
    }
  }

  /** The text of some rule reads as a jump to the target. */
  ghost predicate ReadsJump(rules: seq<Rule>, target: string) {
    exists r <- rules :: ReadsAsJump(RuleText(r), target)
  }

  lemma {:induction false} ReadsJumpConcat(a: seq<Rule>, b: seq<Rule>, target: string)
    ensures ReadsJump(a + b, target) <==> ReadsJump(a, target) || ReadsJump(b, target)
  {
    if r :| r in a && ReadsAsJump(RuleText(r), target) {
      assert r in a + b;
    } else if r :| r in b && ReadsAsJump(RuleText(r), target) {
      assert r in a + b;
    }
  }

  /** The jump patterns match the printed form exactly when some rule of the hook reads as a
      jump, whatever else its text says. */
  lemma {:induction false} JumpPatternByRule(t: Table, order: seq<string>, hook: string, target: string)
    requires Printable(t) && IsOrder(order, t.Keys) && hook in t
    ensures JumpPattern(Print(t, order), hook, target) <==> ReadsJump(t[hook], target)
  {
    PrintedLines(t, order);
    var wanted := "-A " + hook + " ";
    if r :| r in t[hook] && ReadsAsJump(RuleText(r), target) {
      TableLinesMembers(t, order, RuleLine(hook, r));
      RuleLineMatches(hook, r, hook);
    }
    if line :| line in TableLines(t, order) && HasPrefix(line, wanted)
               && ReadsAsJump(line[|hook| + 4..], target) {
      PrefixFirst(line, wanted);
      TableLinesMembers(t, order, line);
      var c, r :| c in order && r in t[c] && line == RuleLine(c, r);
      RuleLineMatches(c, r, hook);
    }
  }

  /** The jump patterns never miss an existing jump. */
  lemma {:induction false} JumpIsRead(r: Rule, target: string)
    requires RulePrintable(r) && r.target == Jump(target)
    ensures ReadsAsJump(RuleText(r), target)
  {
    MatchesTextShape(r.matches);
    var j := |MatchesText(r.matches)|;
    assert RuleText(r)[j..] == "-j " + target;
    assert JumpTextAt(RuleText(r), target, j);
  }

  /** What keeps the text of a rule from being taken for a jump it is not: neither the matches
      (comments included) nor the target hold the jump text, and the target's name does not
      extend the chain's. */
  ghost predicate Unmistakable(r: Rule, target: string) {
    && (forall j :: !OccursAt(MatchesText(r.matches), j, "-j " + target))
    && (forall j :: !OccursAt(TargetText(r.target), j, "-j " + target))
    && (HasPrefix(TargetText(r.target), target) ==> r.target == Jump(target))
  }

  /** OccursAt, character by character. */
  ghost predicate MatchesAt(s: string, j: int, q: string) {
    0 <= j && j + |q| <= |s| && forall k :: 0 <= k < |q| ==> s[j + k] == q[k]
  }

  lemma {:induction false} OccursByCharacter(s: string, j: int, q: string)
    ensures OccursAt(s, j, q) <==> MatchesAt(s, j, q)
  {
    if 0 <= j && j + |q| <= |s| {
      var there := s[j..][..|q|];
      assert forall k :: 0 <= k < |q| ==> there[k] == s[j + k];
      if MatchesAt(s, j, q) {
        assert there == q;
      }
    }
  }

  lemma {:induction false} MatchWithin(m: string, rest: string, j: int, q: string)
    requires MatchesAt(m + rest, j, q) && j + |q| <= |m|
    ensures MatchesAt(m, j, q)
  {
    forall k | 0 <= k < |q| ensures m[j + k] == q[k] {
      assert (m + rest)[j + k] == q[k];
    }
  }

  lemma {:induction false} MatchBeyond(m: string, rest: string, j: int, q: string)
    requires MatchesAt(m + rest, j, q) && j >= |m|
    ensures MatchesAt(rest, j - |m|, q)
  {
    forall k | 0 <= k < |q| ensures rest[j - |m| + k] == q[k] {
      assert (m + rest)[j + k] == q[k];
    }
  }

  /** The jump text begins neither at the "j" nor at the space of another one. */
  lemma {:induction false} MatchAfterDash(x: string, i: int, target: string)
    requires MatchesAt("-j " + x, i, "-j " + target)
    ensures i == 0 || i >= 3
  {
    assert ("-j " + x)[i + 0] == ("-j " + target)[0] == '-';
    assert ("-j " + x)[1] == 'j' && ("-j " + x)[2] == ' ';
  }

  lemma {:induction false} MatchAtDash(x: string, target: string)
    requires MatchesAt("-j " + x, 0, "-j " + target)
    ensures HasPrefix(x, target)
  {
    var s, q := "-j " + x, "-j " + target;
    forall k | 0 <= k < |target| ensures x[k] == target[k] {
      assert s[0 + (k + 3)] == q[k + 3];
    }
    assert x[..|target|] == target;
  }

  lemma {:induction false} ConcatGroups(a: string, b: string, c: string)
    ensures a + b + c == a + (b + c)
  {}

  /** Where the jump text can occur in matches followed by a target: inside the matches, at the
      rule's own "-j", or inside the target. It cannot straddle: the matches end in a space,
      and the only space of the jump text is followed by our chain's name, not by a dash. */
  lemma {:induction false} JumpTextPlaces(m: string, x: string, target: string, j: nat)
    requires m == "" || m[|m| - 1] == ' '
    requires IsName(target) && target[0] != '-'
    requires OccursAt(m + "-j " + x, j, "-j " + target)
    ensures || OccursAt(m, j, "-j " + target)
            || (j == |m| && HasPrefix(x, target))
            || (j >= |m| + 3 && OccursAt(x, j - |m| - 3, "-j " + target))
  {
    var q, rest := "-j " + target, "-j " + x;
    ConcatGroups(m, "-j ", x);
    OccursByCharacter(m + rest, j, q);
    if j + |q| <= |m| {
      MatchWithin(m, rest, j, q);
      OccursByCharacter(m, j, q);
    } else if j < |m| {
      JumpTextSpaces(target);
      NoStraddle(m + rest, q, j, |m|);
    } else {
      MatchBeyond(m, rest, j, q);
      MatchAfterDash(x, j - |m|, target);
      if j == |m| {
        MatchAtDash(x, target);
      } else {
        MatchBeyond("-j ", x, j - |m|, q);
        OccursByCharacter(x, j - |m| - 3, q);
      }
    }
  }

  /** The only space of the jump text is its third character. */
  lemma {:induction false} JumpTextSpaces(target: string)
    requires IsName(target)
    ensures forall k :: 0 <= k < |"-j " + target| && k != 2 ==> ("-j " + target)[k] != ' '
  {
    var q := "-j " + target;
    forall k | 0 <= k < |q| && k != 2 ensures q[k] != ' ' {
      if k >= 3 { assert q[k] == target[k - 3] && target[k - 3] in target; }
    }
  }

  lemma {:induction false} NoStraddle(s: string, q: string, j: nat, end: nat)
    requires |q| > 3 && q[0] == '-' && q[2] == ' ' && q[3] != '-'
    requires forall k :: 0 <= k < |q| && k != 2 ==> q[k] != ' '
    requires MatchesAt(s, j, q)
    requires j < end < j + |q|
    ensures s[end - 1] != ' ' || s[end] != '-'
  {
    assert s[j + (end - 1 - j)] == q[end - 1 - j];
    assert s[j + (end - j)] == q[end - j];
  }

  /** A rule whose text cannot be mistaken reads as a jump exactly when it is one. */
  lemma {:induction false} UnmistakableJump(r: Rule, target: string)
    requires RulePrintable(r) && Unmistakable(r, target)
    requires IsName(target) && target[0] != '-'
    ensures ReadsAsJump(RuleText(r), target) <==> r.target == Jump(target)
  {
    if r.target == Jump(target) { JumpIsRead(r, target); }
    if j :| 0 <= j <= |RuleText(r)| && JumpTextAt(RuleText(r), target, j) {
      MatchesTextShape(r.matches);
      JumpTextPlaces(MatchesText(r.matches), TargetText(r.target), target, j);
    }
  }

  /** The jump text stands in the text of a target, at its start or after a space. */
  predicate ReadsInTarget(x: string, target: string) {
    exists j | 0 <= j <= |x| :: OccursAt(x, j, "-j " + target) && (j == 0 || x[j - 1] == ' ')
  }

  /** A rule as its parts read: its matches, comments included, hold the jump text at their start or
      after a space; or its target's text begins with the chain's name, or itself holds the jump
      text so. */
  ghost predicate PartsRead(r: Rule, target: string) {
    || ReadsAsJump(MatchesText(r.matches), target)
    || HasPrefix(TargetText(r.target), target)
    || ReadsInTarget(TargetText(r.target), target)
  }

  lemma {:induction false} MatchesRead(m: string, x: string, target: string)
    requires ReadsAsJump(m, target)
    ensures ReadsAsJump(m + ("-j " + x), target)
  {
    var q := "-j " + target;
    var j :| 0 <= j <= |m| && JumpTextAt(m, target, j);
    OccursByCharacter(m, j, q);
    var s := m + ("-j " + x);
    forall k | 0 <= k < |q| ensures s[j + k] == q[k] {
      assert m[j + k] == q[k];
    }
    OccursByCharacter(s, j, q);
    assert JumpTextAt(s, target, j);
  }

  lemma {:induction false} TargetNameRead(m: string, x: string, target: string)
    requires m == "" || (|m| >= 2 && m[|m| - 1] == ' ')
    requires HasPrefix(x, target)
    ensures ReadsAsJump(m + ("-j " + x), target)
  {
    assert x == target + x[|target|..];
    assert m + ("-j " + x) == m + ("-j " + target) + x[|target|..];
    JumpTextInside(m, target, x[|target|..]);
  }

  lemma {:induction false} TargetRead(m: string, x: string, target: string)
    requires ReadsInTarget(x, target)
    ensures ReadsAsJump(m + ("-j " + x), target)
  {
    var q := "-j " + target;
    var j :| 0 <= j <= |x| && OccursAt(x, j, q) && (j == 0 || x[j - 1] == ' ');
    var head, tail := m + "-j " + x[..j], x[j + |q|..];
    assert x == x[..j] + q + tail;
    Regrouped(m, "-j ", x[..j], q, tail);
    assert head[|head| - 1] == if j == 0 then ' ' else x[j - 1];
    JumpTextInside(head, target, tail);
  }

  lemma {:induction false} Regrouped(a: string, b: string, c: string, d: string, e: string)
    ensures a + (b + (c + d + e)) == a + b + c + d + e
  {}

  lemma {:induction false} PartsOfReading(m: string, x: string, target: string, j: nat)
    requires m == "" || (|m| >= 2 && m[|m| - 1] == ' ')
    requires IsName(target) && target[0] != '-'
    requires j <= |m + ("-j " + x)| && JumpTextAt(m + ("-j " + x), target, j)
    ensures ReadsAsJump(m, target) || HasPrefix(x, target) || ReadsInTarget(x, target)
  {
    var s := m + ("-j " + x);
    ConcatGroups(m, "-j ", x);
    JumpTextPlaces(m, x, target, j);
    if OccursAt(m, j, "-j " + target) {
      assert j > 0 ==> s[j - 1] == m[j - 1];
      assert JumpTextAt(m, target, j);
    } else if j >= |m| + 3 && OccursAt(x, j - |m| - 3, "-j " + target) {
      assert j > |m| + 3 ==> s[j - 1] == x[j - 1 - |m| - 3];
      assert ReadsInTarget(x, target);
    }
  }

  /** Exactly when the text of a rule is taken for a jump to the chain, by its parts. */
  lemma {:induction false} ReadsByParts(r: Rule, target: string)
    requires RulePrintable(r) && IsName(target) && target[0] != '-'
    ensures ReadsAsJump(RuleText(r), target) <==> PartsRead(r, target)
  {
    var m, x := MatchesText(r.matches), TargetText(r.target);
    MatchesTextShape(r.matches);
    ConcatGroups(m, "-j ", x);
    if j :| 0 <= j <= |RuleText(r)| && JumpTextAt(RuleText(r), target, j) {
      PartsOfReading(m, x, target, j);
    }
    if ReadsAsJump(m, target) {
      MatchesRead(m, x, target);
    } else if HasPrefix(x, target) {
      TargetNameRead(m, x, target);
    } else if ReadsInTarget(x, target) {
      TargetRead(m, x, target);
    }
  }

  /** Reading back is faithful, that is, the pattern matches the printed form exactly when the jump
      exists, if and only if the jump does exist or no part of a rule of the hook reads as one. An
      existing jump is never missed. */
  lemma {:induction false} JumpPatternFaithful(t: Table, order: seq<string>, hook: string, target: string)
    requires Printable(t) && IsOrder(order, t.Keys) && hook in t
    ensures JumpsTo(t[hook], target) ==> JumpPattern(Print(t, order), hook, target)
    ensures (JumpPattern(Print(t, order), hook, target) <==> JumpsTo(t[hook], target)) <==>
            (JumpsTo(t[hook], target) || !ReadsJump(t[hook], target))
    ensures IsName(target) && target[0] != '-' ==>
              (ReadsJump(t[hook], target) <==> exists r <- t[hook] :: PartsRead(r, target))
  {
    JumpPatternByRule(t, order, hook, target);
    if JumpsTo(t[hook], target) {
      JumpIsReadAmong(t[hook], target);
    }
    if IsName(target) && target[0] != '-' {
      forall r <- t[hook] ensures ReadsAsJump(RuleText(r), target) <==> PartsRead(r, target) {
        ReadsByParts(r, target);
      }
    }
  }

  lemma {:induction false} JumpIsReadAmong(rules: seq<Rule>, target: string)
    requires (forall r <- rules :: RulePrintable(r)) && JumpsTo(rules, target)
    ensures ReadsJump(rules, target)
  {
    var r :| r in rules && r.target == Jump(target);
    JumpIsRead(r, target);
  }

  /** No rule can be mistaken for a jump to the chain. */
  ghost predicate AllUnmistakable(rules: seq<Rule>, target: string) {
    forall r <- rules :: Unmistakable(r, target)
  }

  /** On rules that cannot be mistaken, jumps are read exactly. */
  lemma {:induction false} UnmistakableJumps(rules: seq<Rule>, target: string)
    requires (forall r <- rules :: RulePrintable(r)) && AllUnmistakable(rules, target)
    requires IsName(target) && target[0] != '-'
    ensures ReadsJump(rules, target) <==> JumpsTo(rules, target)
  {
    forall r <- rules ensures ReadsAsJump(RuleText(r), target) <==> r.target == Jump(target) {
      UnmistakableJump(r, target);
    }
  }

  /** The condition is needed: a comment that quotes the jump, or a jump to a chain whose name
      extends ours, is read as our jump although there is none. */
  lemma {:induction false} JumpPatternCanBeFooled(target: string)
    requires IsName(target)
    ensures ReadsAsJump(RuleText(Rule([Comment("see -j " + target)], Return)), target)
    ensures ReadsAsJump(RuleText(Rule([], Jump(target + "_V2"))), target)
  {
    assert "see -j " + target == "see " + ("-j " + target);
    QuotedJumpIsRead("see ", target);
    LongerNameIsRead(target, "_V2");
  }

  /** A comment that quotes the jump, after a text that ends in a space. */
  lemma {:induction false} QuotedJumpIsRead(before: string, target: string)
    requires before != "" && before[|before| - 1] == ' '
    ensures ReadsAsJump(RuleText(Rule([Comment(before + ("-j " + target))], Return)), target)
  {
    var head, tail := "-m comment --comment \"" + before, "\" " + "-j RETURN";
    CommentedReturnText(before + ("-j " + target));
    assert RuleText(Rule([Comment(before + ("-j " + target))], Return)) == head + ("-j " + target) + tail;
    JumpTextInside(head, target, tail);
  }

  lemma {:induction false} CommentedReturnText(comment: string)
    ensures RuleText(Rule([Comment(comment)], Return)) ==
            "-m comment --comment \"" + comment + "\"" + " " + "-j RETURN"
  {
    var quote := Comment(comment);
    assert [quote][..0] == [];
    assert MatchesText([quote]) == "" + MatchText(quote) + " ";
  }

  lemma {:induction false} JumpTextInside(head: string, target: string, tail: string)
    requires head == "" || (|head| >= 2 && head[|head| - 1] == ' ')
    ensures ReadsAsJump(head + ("-j " + target) + tail, target)
  {
    OccursInside(head, "-j " + target, tail);
    assert JumpTextAt(head + ("-j " + target) + tail, target, |head|);
  }

  lemma {:induction false} LongerNameIsRead(target: string, suffix: string)
    ensures ReadsAsJump(RuleText(Rule([], Jump(target + suffix))), target)
  {
    assert RuleText(Rule([], Jump(target + suffix))) == "" + ("-j " + target) + suffix;
    JumpTextInside("", target, suffix);
  }

  lemma {:induction false} OccursInside(head: string, needle: string, tail: string)
    ensures OccursAt(head + needle + tail, |head|, needle)
  {}
}

/** pkg/iptables/iptables.go: packing ignored ports into as few `--dports` lists as possible.
    One iptables command takes at most 15 port references and a range counts as two. */
module Multiport {
  import opened Text
  import opened PortRanges

  const MULTIPORT_LIMIT: nat := 15

  function PortCount(r: PortRange): (n: nat)
    ensures 1 <= n <= 2
  {
    if r.lower == r.upper then 1 else 2
  }

  function Weight(chunk: seq<PortRange>): nat {
    if chunk == [] then 0 else Weight(chunk[..|chunk| - 1]) + PortCount(chunk[|chunk| - 1])
  }

  function Flatten(chunks: seq<seq<PortRange>>): seq<PortRange> {
    if chunks == [] then [] else Flatten(chunks[..|chunks| - 1]) + chunks[|chunks| - 1]
  }

  predicate AllValid(entries: seq<PortRange>) { forall r <- entries :: ValidRange(r) }

  /** The entries of an ignore list that parse, in order; the others are only logged. */
  function ValidEntries(ports: seq<string>): (entries: seq<PortRange>)
    ensures AllValid(entries)
  {
    if ports == [] then []
    else
      var entries := ValidEntries(ports[..|ports| - 1]);
      match ParsePortRange(ports[|ports| - 1])
      case Ok(r) => entries + [r]
      case Err(_) => entries
  }

  /** The state of the greedy packer: the chunks it has closed and the one it is filling. */
  datatype Packing = Packing(closed: seq<seq<PortRange>>, open: seq<PortRange>) {
    function All(): seq<seq<PortRange>> { closed + [open] }

    function Add(e: PortRange): Packing {
      if Weight(open) + PortCount(e) > MULTIPORT_LIMIT then Packing(closed + [open], [] + [e])
      else Packing(closed, open + [e])
    }
  }

  function Pack(entries: seq<PortRange>): Packing {
    if entries == [] then Packing([], [])
    else Pack(entries[..|entries| - 1]).Add(entries[|entries| - 1])
  }

  /** The chunks of an ignore list: none for an empty list, and one empty chunk for a
      non-empty list without a valid entry. */
  function Chunks(ports: seq<string>): seq<seq<PortRange>> {
    if ports == [] then [] else Pack(ValidEntries(ports)).All()
  }

  function Destinations(chunk: seq<PortRange>): (texts: seq<string>)
    requires AllValid(chunk)
    ensures |texts| == |chunk|
  {
    seq(|chunk|, k requires 0 <= k < |chunk| => AsDestination(chunk[k]))
  }

  function AllDestinations(chunks: seq<seq<PortRange>>): (texts: seq<seq<string>>)
    requires forall c <- chunks :: AllValid(c)
    ensures |texts| == |chunks|
  {
    seq(|chunks|, k requires 0 <= k < |chunks| => Destinations(chunks[k]))
  }

  lemma {:induction false} PackKeepsValid(entries: seq<PortRange>)
    requires AllValid(entries)
    ensures AllValid(Pack(entries).open) && forall c <- Pack(entries).closed :: AllValid(c)
  {
    if entries != [] {
      PackKeepsValid(entries[..|entries| - 1]);
      assert entries[|entries| - 1] in entries;
    }
  }

  lemma {:induction false} ChunksKeepValid(ports: seq<string>)
    ensures forall c <- Chunks(ports) :: AllValid(c)
  {
    PackKeepsValid(ValidEntries(ports));
  }

  lemma {:induction false} ValidEntriesNext(ports: seq<string>, i: nat)
    requires i < |ports|
    ensures ValidEntries(ports[..i + 1]) ==
            match ParsePortRange(ports[i])
            case Ok(r) => ValidEntries(ports[..i]) + [r]
            case Err(_) => ValidEntries(ports[..i])
  {
    assert ports[..i + 1][..i] == ports[..i];
  }

  lemma {:induction false} PackNext(entries: seq<PortRange>, e: PortRange)
    ensures Pack(entries + [e]) == Pack(entries).Add(e)
  {}

  lemma {:induction false} DestinationsNext(chunk: seq<PortRange>, e: PortRange)
    requires AllValid(chunk) && ValidRange(e)
    ensures AllValid(chunk + [e])
    ensures Destinations(chunk + [e]) == Destinations(chunk) + [AsDestination(e)]
  {}

  lemma {:induction false} AllDestinationsNext(chunks: seq<seq<PortRange>>, chunk: seq<PortRange>)
    requires AllValid(chunk) && forall c <- chunks :: AllValid(c)
    ensures forall c <- chunks + [chunk] :: AllValid(c)
    ensures AllDestinations(chunks + [chunk]) == AllDestinations(chunks) + [Destinations(chunk)]
  {}

  ghost predicate PackingValid(p: Packing) {
    AllValid(p.open) && forall c <- p.closed :: AllValid(c)
  }

  /** What one more entry does to the printed chunks and to the weight of the open one. */
  lemma {:induction false} AddedTexts(p: Packing, e: PortRange)
    requires PackingValid(p) && ValidRange(e)
    ensures PackingValid(p.Add(e))
    ensures var q := p.Add(e);
            if Weight(p.open) + PortCount(e) > MULTIPORT_LIMIT then
              && AllDestinations(q.closed) == AllDestinations(p.closed) + [Destinations(p.open)]
              && Destinations(q.open) == [AsDestination(e)] && Weight(q.open) == PortCount(e)
            else
              && q.closed == p.closed && Destinations(q.open) == Destinations(p.open) + [AsDestination(e)]
              && Weight(q.open) == Weight(p.open) + PortCount(e)
  {
    AllDestinationsNext(p.closed, p.open);
    DestinationsNext(p.open, e);
    WeightLast(p.open, e);
    WeightLast([], e);
  }

  /** The packer after the first `i` texts of the list. */
  function PackedTo(ports: seq<string>, i: nat): Packing
    requires i <= |ports|
  {
    Pack(ValidEntries(ports[..i]))
  }

  lemma {:induction false} PackedNext(ports: seq<string>, i: nat)
    requires i < |ports|
    ensures ParsePortRange(ports[i]).Ok? ==>
              PackedTo(ports, i + 1) == PackedTo(ports, i).Add(ParsePortRange(ports[i]).value)
    ensures ParsePortRange(ports[i]).Err? ==> PackedTo(ports, i + 1) == PackedTo(ports, i)
  {
    ValidEntriesNext(ports, i);
    if ParsePortRange(ports[i]).Ok? {
      PackNext(ValidEntries(ports[..i]), ParsePortRange(ports[i]).value);
    }
  }

  /** The lists printed for an ignore list with a valid entry keep to a number of port references. */
  ghost predicate ListsWithin(lists: seq<seq<string>>, ports: seq<string>, limit: nat) {
    ValidEntries(ports) != [] ==> forall texts <- lists :: PortReferences(Join(texts, ',')) <= limit
  }

  /** makeMultiportDestinations: one pass over the list, closing a chunk when the next entry
      does not fit. */
  method MakeMultiportDestinations(portsToIgnore: seq<string>)
    returns (destinationSlices: seq<seq<string>>)
    ensures forall c <- Chunks(portsToIgnore) :: AllValid(c)
    ensures destinationSlices == AllDestinations(Chunks(portsToIgnore))
    ensures ListsWithin(destinationSlices, portsToIgnore, 15)
  {
    ChunksKeepValid(portsToIgnore);
    destinationSlices := [];
    if |portsToIgnore| < 1 {
      ListsWithinLimit(portsToIgnore);
      return;
    }
    var destinationPortCount := 0;
    var destinations := [];
    ghost var packing := Packing([], []);
    for i := 0 to |portsToIgnore|
      invariant packing == PackedTo(portsToIgnore, i)
      invariant PackingValid(packing)
      invariant destinationSlices == AllDestinations(packing.closed)
      invariant destinations == Destinations(packing.open)
      invariant destinationPortCount == Weight(packing.open)
    {
      PackedNext(portsToIgnore, i);
      match ParsePortRange(portsToIgnore[i]) {
        case Ok(portRange) =>
          AddedTexts(packing, portRange);
          var portCount := 2;
          if portRange.lower == portRange.upper {
            portCount := 1;
          }
          if destinationPortCount + portCount > MULTIPORT_LIMIT {
            destinationSlices := destinationSlices + [destinations];
            destinationPortCount := 0;
            destinations := [];
          }
          destinations := destinations + [AsDestination(portRange)];
          destinationPortCount := destinationPortCount + portCount;
          packing := packing.Add(portRange);
        case Err(_) =>
      }
    }
    assert portsToIgnore[..|portsToIgnore|] == portsToIgnore;
    AllDestinationsNext(packing.closed, packing.open);
    destinationSlices := destinationSlices + [destinations];
    ListsWithinLimit(portsToIgnore);
  }

  // ---- Conservation and capacity ---------------------------------------------------------

  lemma {:induction false} FlattenLast(chunks: seq<seq<PortRange>>, last: seq<PortRange>)
    ensures Flatten(chunks + [last]) == Flatten(chunks) + last
  {}

  lemma {:induction false} WeightLast(chunk: seq<PortRange>, e: PortRange)
    ensures Weight(chunk + [e]) == Weight(chunk) + PortCount(e)
  {}

  /** What holds of the packer after the given entries: it has lost and reordered nothing,
      every chunk is within the limit, closed chunks are nearly full, and only a packer that
      has seen nothing holds an empty chunk. */
  ghost predicate Tight(p: Packing, entries: seq<PortRange>) {
    && InOrder(p, entries)
    && (forall c <- p.closed :: MULTIPORT_LIMIT - 1 <= Weight(c) <= MULTIPORT_LIMIT)
    && Weight(p.open) <= MULTIPORT_LIMIT
    && (entries != [] ==> p.open != [])
  }

  ghost predicate InOrder(p: Packing, entries: seq<PortRange>) {
    Flatten(p.closed) + p.open == entries
  }

  lemma {:induction false} AddKeepsTight(p: Packing, entries: seq<PortRange>, e: PortRange)
    requires Tight(p, entries)
    ensures Tight(p.Add(e), entries + [e])
  {}

  lemma {:induction false} NothingIsTight()
    ensures Tight(Packing([], []), [])
  {}

  lemma {:induction false} PackIsTight(entries: seq<PortRange>)
    ensures Tight(Pack(entries), entries)
  {
    if entries == [] {
      NothingIsTight();
    } else {
      var init, e := entries[..|entries| - 1], entries[|entries| - 1];
      assert entries == init + [e];
      PackIsTight(init);
      AddKeepsTight(Pack(init), init, e);
    }
  }

  /** Packing conserves: the chunks in order are exactly the valid entries in order, every
      chunk is within the limit, every chunk but the last carries at least 14 references, and
      no chunk is empty when some entry is valid. */
  lemma {:induction false} PackingConserves(ports: seq<string>)
    ensures Flatten(Chunks(ports)) == ValidEntries(ports)
    ensures forall c <- Chunks(ports) :: Weight(c) <= MULTIPORT_LIMIT
    ensures forall k :: 0 <= k < |Chunks(ports)| - 1 ==> Weight(Chunks(ports)[k]) >= MULTIPORT_LIMIT - 1
    ensures ValidEntries(ports) != [] ==> [] !in Chunks(ports)
  {
    if ports != [] {
      var entries := ValidEntries(ports);
      PackIsTight(entries);
      TightChunks(Pack(entries), entries);
    }
  }

  lemma {:induction false} TightChunks(p: Packing, entries: seq<PortRange>)
    requires Tight(p, entries)
    ensures Flatten(p.All()) == entries
    ensures forall k :: 0 <= k < |p.All()| ==> Weight(p.All()[k]) <= MULTIPORT_LIMIT
    ensures forall k :: 0 <= k < |p.All()| - 1 ==> Weight(p.All()[k]) >= MULTIPORT_LIMIT - 1
    ensures entries != [] ==> forall k :: 0 <= k < |p.All()| ==> p.All()[k] != []
  {}

  // ---- Optimality ------------------------------------------------------------------------

  /** An order-preserving split of the entries into chunks within the limit. */
  ghost predicate IsSplit(chunks: seq<seq<PortRange>>, entries: seq<PortRange>) {
    Flatten(chunks) == entries && forall c <- chunks :: Weight(c) <= MULTIPORT_LIMIT
  }

  /** The packer stays ahead of every split: it never has more chunks, and with as many
      chunks its open one is never heavier than the split's last. */
  lemma {:induction false} PackStaysAhead(entries: seq<PortRange>, closed: seq<seq<PortRange>>,
                                          last: seq<PortRange>)
    requires Flatten(closed) + last == entries && Weight(last) <= MULTIPORT_LIMIT
    requires forall c <- closed :: Weight(c) <= MULTIPORT_LIMIT
    ensures |Pack(entries).closed| <= |closed|
    ensures |Pack(entries).closed| == |closed| ==> Weight(Pack(entries).open) <= Weight(last)
    decreases |closed|, |last|
  {
    if last != [] {
      var shorter, e := last[..|last| - 1], last[|last| - 1];
      assert last == shorter + [e];
      assert entries[..|entries| - 1] == Flatten(closed) + shorter;
      WeightLast(shorter, e);
      PackStaysAhead(entries[..|entries| - 1], closed, shorter);
      WeightLast(Pack(entries[..|entries| - 1]).open, e);
      WeightLast([], e);
    } else if closed != [] {
      var n := |closed| - 1;
      FlattenLast(closed[..n], closed[n]);
      assert closed == closed[..n] + [closed[n]];
      PackStaysAhead(entries, closed[..n], closed[n]);
    }
  }

  ghost predicate IsLeastSplitSize(n: nat, entries: seq<PortRange>) {
    SplitsInto(n, entries) && NoSplitBelow(n, entries)
  }

  ghost predicate SplitsInto(n: nat, entries: seq<PortRange>) {
    exists chunks :: IsSplit(chunks, entries) && |chunks| == n
  }

  ghost predicate NoSplitBelow(n: nat, entries: seq<PortRange>) {
    forall chunks :: IsSplit(chunks, entries) ==> n <= |chunks|
  }

  lemma {:induction false} PackingSplits(ports: seq<string>)
    ensures SplitsInto(|Chunks(ports)|, ValidEntries(ports))
  {
    PackingConserves(ports);
    assert IsSplit(Chunks(ports), ValidEntries(ports));
  }

  lemma {:induction false} NoSplitBeatsPacking(entries: seq<PortRange>, chunks: seq<seq<PortRange>>)
    requires entries != [] && IsSplit(chunks, entries)
    ensures |Pack(entries).All()| <= |chunks|
  {
    var n := |chunks| - 1;
    assert chunks != [];
    assert chunks == chunks[..n] + [chunks[n]];
    FlattenLast(chunks[..n], chunks[n]);
    PackStaysAhead(entries, chunks[..n], chunks[n]);
  }

  lemma {:induction false} PackingIsLeast(entries: seq<PortRange>)
    requires entries != []
    ensures NoSplitBelow(|Pack(entries).All()|, entries)
  {
    forall chunks | IsSplit(chunks, entries) ensures |Pack(entries).All()| <= |chunks| {
      NoSplitBeatsPacking(entries, chunks);
    }
  }

  /** Nothing splits into no chunks, and into nothing fewer. */
  lemma {:induction false} NothingSplits()
    ensures IsLeastSplitSize(0, [])
  {
    assert IsSplit([], []);
  }

  lemma {:induction false} LeastSplitSizeOfNothing(n: nat)
    requires n > 0
    ensures !IsLeastSplitSize(n, [])
  {
    var none: seq<seq<PortRange>> := [];
    assert IsSplit(none, []) && |none| < n;
  }

  /** The number of chunks is the least possible, except in the one case the code gets wrong:
      a non-empty list without a valid entry costs one useless command. */
  lemma {:induction false} PackingIsOptimal(ports: seq<string>)
    ensures IsLeastSplitSize(|Chunks(ports)|, ValidEntries(ports)) <==>
            (ports == [] || ValidEntries(ports) != [])
  {
    if ports == [] {
      NothingSplits();
    } else if ValidEntries(ports) == [] {
      LeastSplitSizeOfNothing(|Chunks(ports)|);
    } else {
      PackingSplits(ports);
      PackingIsLeast(ValidEntries(ports));
    }
  }

  /** A list whose one entry is no port costs a command that ignores nothing: one chunk, where none
      would do. */
  lemma {:induction false} BadEntryCostsACommand()
    ensures Chunks(["x"]) == [[]] && !IsLeastSplitSize(|Chunks(["x"])|, ValidEntries(["x"]))
  {
    SplitNoSeparator("x", '-');
    AtoiExact("x");
    assert !IsDigit('x') && "x"[0] == 'x';
    assert ["x"][..0] == [];
    PackingIsOptimal(["x"]);
  }

  // ---- Reading a `--dports` text back ----------------------------------------------------

  function ReadPort(text: string): Option<nat> {
    if text != "" && AllDigits(text) && Value(text) <= MAX_PORT then Some(Value(text)) else None
  }

  /** One destination as iptables reads it: a port, or two ports around a colon. */
  function ReadDestination(text: string): (r: Option<PortRange>)
    ensures r.Some? ==> ValidRange(r.value)
  {
    var bounds := Split(text, ':');
    var lower, upper := ReadPort(bounds[0]), ReadPort(bounds[|bounds| - 1]);
    if |bounds| <= 2 && lower.Some? && upper.Some? && lower.value <= upper.value then
      Some(PortRange(lower.value, upper.value))
    else None
  }

  function ReadAll(texts: seq<string>): Option<seq<PortRange>> {
    if texts == [] then Some([])
    else
      var rest := ReadAll(texts[..|texts| - 1]);
      var r := ReadDestination(texts[|texts| - 1]);
      if rest.Some? && r.Some? then Some(rest.value + [r.value]) else None
  }

  /** A whole `--dports` argument. */
  function ReadDports(text: string): Option<seq<PortRange>> {
    ReadAll(Split(text, ','))
  }

  lemma {:induction false} NumeralPunctuation(n: nat)
    ensures ':' !in Itoa(n) && ',' !in Itoa(n)
  {
    assert !IsDigit(':') && !IsDigit(',');
  }

  lemma {:induction false} ReadPortPrinted(n: nat)
    requires n <= MAX_PORT
    ensures ReadPort(Itoa(n)) == Some(n)
  {
    ValueItoa(n);
  }

  /** How the text of a destination splits into its bounds. */
  lemma {:induction false} DestinationBounds(r: PortRange)
    requires ValidRange(r)
    ensures Split(AsDestination(r), ':') ==
            if r.lower == r.upper then [Itoa(r.lower)] else [Itoa(r.lower), Itoa(r.upper)]
    ensures ',' !in AsDestination(r)
  {
    var a, b := Itoa(r.lower), Itoa(r.upper);
    NumeralPunctuation(r.lower);
    NumeralPunctuation(r.upper);
    SplitNoSeparator(a, ':');
    SplitNoSeparator(b, ':');
    SplitFirst(a, b, ':');
    assert a + ":" + b == a + [':'] + b;
  }

  lemma {:induction false} ReadDestinationPrinted(r: PortRange)
    requires ValidRange(r)
    ensures ReadDestination(AsDestination(r)) == Some(r)
    ensures ',' !in AsDestination(r)
  {
    DestinationBounds(r);
    ReadPortPrinted(r.lower);
    ReadPortPrinted(r.upper);
  }

  lemma {:induction false} ReadAllNext(texts: seq<string>, last: string)
    requires ReadAll(texts).Some? && ReadDestination(last).Some?
    ensures ReadAll(texts + [last]) == Some(ReadAll(texts).value + [ReadDestination(last).value])
  {
    assert (texts + [last])[..|texts|] == texts;
  }

  lemma {:induction false} ReadAllPrinted(chunk: seq<PortRange>)
    requires AllValid(chunk)
    ensures ReadAll(Destinations(chunk)) == Some(chunk)
    ensures forall t <- Destinations(chunk) :: ',' !in t
  {
    if chunk != [] {
      var init, last := chunk[..|chunk| - 1], chunk[|chunk| - 1];
      assert last in chunk && chunk == init + [last];
      ReadAllPrinted(init);
      ReadDestinationPrinted(last);
      DestinationsNext(init, last);
      ReadAllNext(Destinations(init), AsDestination(last));
    }
  }

  /** The text of a non-empty chunk reads back as the chunk; the text of an empty one is no
      valid argument. */
  lemma {:induction false} ReadDportsPrinted(chunk: seq<PortRange>)
    requires AllValid(chunk)
    ensures ReadDports(Join(Destinations(chunk), ',')) == if chunk == [] then None else Some(chunk)
  {
    ReadAllPrinted(chunk);
    if chunk == [] {
      assert Split("", ',') == [""];
      assert [""][..0] == [];
      assert ReadDestination("").None?;
    } else {
      SplitJoin(Destinations(chunk), ',');
    }
  }

  predicate TextCovers(text: string, port: int) {
    ReadDports(text).Some? && exists r <- ReadDports(text).value :: Covers(r, port)
  }

  predicate Holds(r: PortRange, port: int) { r.lower <= port <= r.upper }

  /** Some entry of the ignore list parses as a range that holds the port. */
  predicate IgnoresPort(ports: seq<string>, port: int) {
    exists p <- ports :: ParsePortRange(p).Ok? && Holds(ParsePortRange(p).value, port)
  }

  lemma {:induction false} ValidEntriesCover(ports: seq<string>, port: int)
    ensures IgnoresPort(ports, port) <==> exists r <- ValidEntries(ports) :: Covers(r, port)
  {
    if ports != [] {
      var init, last := ports[..|ports| - 1], ports[|ports| - 1];
      ValidEntriesCover(init, port);
      assert ports == init + [last];
      assert IgnoresPort(ports, port) <==>
        (IgnoresPort(init, port) || (ParsePortRange(last).Ok? && Covers(ParsePortRange(last).value, port)));
    }
  }

  lemma {:induction false} FlattenMembers(chunks: seq<seq<PortRange>>, r: PortRange)
    ensures r in Flatten(chunks) <==> exists c <- chunks :: r in c
  {
    if chunks != [] {
      FlattenMembers(chunks[..|chunks| - 1], r);
      assert chunks == chunks[..|chunks| - 1] + [chunks[|chunks| - 1]];
    }
  }

  /** The joined texts, read back, cover a port exactly when some valid entry of the list
      does. */
  lemma {:induction false} PackingCovers(ports: seq<string>, port: int)
    ensures forall c <- Chunks(ports) :: AllValid(c)
    ensures (exists c <- Chunks(ports) :: TextCovers(Join(Destinations(c), ','), port)) <==>
            IgnoresPort(ports, port)
  {
    ChunksKeepValid(ports);
    ValidEntriesCover(ports, port);
    PackingConserves(ports);
    forall c | c in Chunks(ports)
      ensures TextCovers(Join(Destinations(c), ','), port) <==> exists r <- c :: Covers(r, port)
    {
      ReadDportsPrinted(c);
    }
    forall r: PortRange ensures r in ValidEntries(ports) <==> exists c <- Chunks(ports) :: r in c {
      FlattenMembers(Chunks(ports), r);
    }
  }

  // ---- The limit, counted in the text ----------------------------------------------------

  /** The port references in a `--dports` text: one, and one more at each comma and at each colon. */
  function PortReferences(text: string): nat {
    1 + multiset(text)[','] + multiset(text)[':']
  }

  lemma {:induction false} MarksConcat(a: string, b: string)
    ensures multiset(a + b) == multiset(a) + multiset(b)
  {}

  lemma {:induction false} NumeralMarks(n: nat)
    ensures multiset(Itoa(n))[','] == 0 && multiset(Itoa(n))[':'] == 0
  {
    NumeralPunctuation(n);
  }

  lemma {:induction false} DestinationReferences(r: PortRange)
    requires ValidRange(r)
    ensures PortReferences(AsDestination(r)) == (if r.lower == r.upper then 1 else 2)
    ensures PortReferences(AsDestination(r)) == PortCount(r)
    ensures multiset(AsDestination(r))[','] == 0
  {
    NumeralMarks(r.lower);
    NumeralMarks(r.upper);
    if r.lower != r.upper {
      MarksConcat(Itoa(r.lower) + ":", Itoa(r.upper));
      MarksConcat(Itoa(r.lower), ":");
      assert multiset(":")[':'] == 1 && multiset(":")[','] == 0;
    }
  }

  lemma {:induction false} JoinLast(texts: seq<string>, last: string)
    requires texts != []
    ensures Join(texts + [last], ',') == Join(texts, ',') + "," + last
  {
    if |texts| > 1 {
      JoinLast(texts[1..], last);
      assert (texts + [last])[1..] == texts[1..] + [last];
    } else {
      assert (texts + [last])[1..] == [last];
    }
  }

  lemma {:induction false} ReferencesConcat(a: string, b: string)
    ensures PortReferences(a + "," + b) == PortReferences(a) + PortReferences(b)
  {
    MarksConcat(a + ",", b);
    MarksConcat(a, ",");
    assert multiset(",")[','] == 1 && multiset(",")[':'] == 0;
  }

  lemma {:induction false} ReferencesJoinLast(texts: seq<string>, last: string)
    requires texts != []
    ensures PortReferences(Join(texts + [last], ',')) == PortReferences(Join(texts, ',')) + PortReferences(last)
  {
    JoinLast(texts, last);
    ReferencesConcat(Join(texts, ','), last);
  }

  lemma {:induction false} JoinOne(text: string)
    ensures Join([] + [text], ',') == text
  {}

  /** The weight the packer measures with is the number of references in the text it prints. */
  lemma {:induction false} WeightIsReferences(chunk: seq<PortRange>)
    requires AllValid(chunk) && chunk != []
    ensures Weight(chunk) == PortReferences(Join(Destinations(chunk), ','))
  {
    var init, last := chunk[..|chunk| - 1], chunk[|chunk| - 1];
    assert chunk == init + [last] && last in chunk;
    DestinationsNext(init, last);
    DestinationReferences(last);
    if init != [] {
      WeightIsReferences(init);
      ReferencesJoinLast(Destinations(init), AsDestination(last));
    } else {
      assert Destinations(init) == [];
      JoinOne(AsDestination(last));
    }
  }

  /** No `--dports` list of an ignore list with a valid entry holds more than the 15 port references
      iptables takes, and all but the last hold at least 14: a single port is one reference, a range
      two. */
  lemma {:induction false} DportsFillTheLimit(ports: seq<string>)
    requires ValidEntries(ports) != []
    ensures forall c <- Chunks(ports) :: AllValid(c)
    ensures forall c <- Chunks(ports) :: PortReferences(Join(Destinations(c), ',')) <= 15
    ensures forall k :: 0 <= k < |Chunks(ports)| - 1 ==>
              PortReferences(Join(Destinations(Chunks(ports)[k]), ',')) >= 14
  {
    ChunksKeepValid(ports);
    PackingConserves(ports);
    forall c <- Chunks(ports) ensures PortReferences(Join(Destinations(c), ',')) == Weight(c) {
      WeightIsReferences(c);
    }
    forall k | 0 <= k < |Chunks(ports)| - 1
      ensures PortReferences(Join(Destinations(Chunks(ports)[k]), ',')) >= 14
    {
      assert Chunks(ports)[k] in Chunks(ports);
    }
  }

  lemma {:induction false} ListsWithinLimit(ports: seq<string>)
    ensures forall c <- Chunks(ports) :: AllValid(c)
    ensures ListsWithin(AllDestinations(Chunks(ports)), ports, 15)
  {
    ChunksKeepValid(ports);
    if ValidEntries(ports) != [] {
      DportsFillTheLimit(ports);
    }
  }
}

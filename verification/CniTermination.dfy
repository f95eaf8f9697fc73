/** The self-triggering event loop terminates: although every rewrite enqueues new events, without
    further external writes the handlers come to rest (internal/cni/conf.go, watch_fs.go). */
module CniTermination {
  import opened Text
  import opened CniConfig
  import opened CniPaths
  import opened CniInvariant
  import opened CniMachine

  /** What an event can make the loop do. */
  datatype Interest = TokenChange | ConfChange | ConflistChange | Ignored

  function InterestOf(e: Event): Interest {
    if !Applies(e) then Ignored
    else if e.path.dir.TokenDir? && HasSuffix(e.path.base, "..data") then TokenChange
    else if !e.path.dir.ConfigDir? then Ignored
    else
      match KindOf(e.path)
      case Conf => ConfChange
      case Conflist => ConflistChange
      case NotCni => Ignored
  }

  function Count(events: seq<Event>, i: Interest): nat {
    if events == [] then 0
    else Count(events[..|events| - 1], i) + (if InterestOf(events[|events| - 1]) == i then 1 else 0)
  }

  lemma {:induction false} CountConcat(a: seq<Event>, b: seq<Event>, i: Interest)
    ensures Count(a + b, i) == Count(a, i) + Count(b, i)
  {
    if b == [] {
      assert a + b == a;
    } else {
      assert (a + b)[..|a + b| - 1] == a + b[..|b| - 1];
      CountConcat(a, b[..|b| - 1], i);
    }
  }

  lemma {:induction false} CountOne(e: Event, i: Interest)
    ensures Count([e], i) == if InterestOf(e) == i then 1 else 0
  {}

  lemma {:induction false} CountPopped(events: seq<Event>, i: Interest)
    requires events != []
    ensures Count(events, i) == Count(events[1..], i) + (if InterestOf(events[0]) == i then 1 else 0)
  {
    CountConcat([events[0]], events[1..], i);
    CountOne(events[0], i);
    assert events == [events[0]] + events[1..];
  }

  /** The rewrite under way has put its result in place but not yet recorded its digest. */
  predicate Recording(s: Sys) { s.pc.Busy? && s.pc.stage in {Logging, Hashing} }

  /** The configurations whose digest is not recorded, not counting one about to be recorded. */
  function Unrecorded(s: Sys): set<Path> {
    set p <- s.disk.files.Keys |
      Watched(p) && Lookup(s.hashes, p) != DigestOf(s.disk.files[p]) && !(Recording(s) && s.pc.plan.dst == p)
  }

  /** A `.conf` is being rewritten and its `.conflist` not yet in place. */
  predicate Upgrading(s: Sys) {
    s.pc.Busy? && s.pc.stage in {Writing, Renaming} && s.pc.plan.src != s.pc.plan.dst
  }

  /** Pending `.conf` events, each worth two until the rewrite it causes is in place. */
  function ConfDebt(s: Sys): nat {
    2 * Count(s.disk.events, ConfChange) + (if Upgrading(s) then 1 else 0)
  }

  ghost predicate Less(a: (nat, nat, nat, nat, nat, nat), b: (nat, nat, nat, nat, nat, nat)) {
    || a.0 < b.0
    || (a.0 == b.0 && a.1 < b.1)
    || (a.0 == b.0 && a.1 == b.1 && a.2 < b.2)
    || (a.0 == b.0 && a.1 == b.1 && a.2 == b.2 && a.3 < b.3)
    || (a.0 == b.0 && a.1 == b.1 && a.2 == b.2 && a.3 == b.3 && a.4 < b.4)
    || (a.0 == b.0 && a.1 == b.1 && a.2 == b.2 && a.3 == b.3 && a.4 == b.4 && a.5 < b.5)
  }

  /** Unrecorded configurations, token events, `.conf` events, `.conflist` events, steps left of
      the current handler, and queue length. */
  function Measure(s: Sys): (nat, nat, nat, nat, nat, nat) {
    (|Unrecorded(s)|, Count(s.disk.events, TokenChange), ConfDebt(s), Count(s.disk.events, ConflistChange),
     Rank(s.pc), |s.disk.events|)
  }

  /** What the measure relies on: a rewrite starts only from a file whose digest is not recorded. */
  ghost predicate Ready(s: Sys) {
    && Shape(s)
    && (s.pc.Busy? && s.pc.stage in {Writing, Renaming} ==>
          Lookup(s.hashes, s.pc.plan.src) != DigestOf(s.disk.files[s.pc.plan.src]))
  }

  lemma {:induction false} SubsetSize(a: set<Path>, b: set<Path>)
    requires a <= b
    ensures |a| <= |b| && (a != b ==> |a| < |b|)
  {
    var rest := b - a;
    assert b == a + rest;
  }

  lemma {:induction false} UnrecordedFrame(s: Sys, s': Sys)
    requires KeepsConfigurations(s, s') && s'.hashes == s.hashes
    requires Recording(s) ==> Recording(s') && s'.pc.plan.dst == s.pc.plan.dst
    ensures |Unrecorded(s')| <= |Unrecorded(s)|
  {
    SubsetSize(Unrecorded(s'), Unrecorded(s));
  }

  lemma {:induction false} CountQuiet(events: seq<Event>, more: seq<Event>, i: Interest)
    requires forall e <- more :: InterestOf(e) != i
    ensures Count(events + more, i) == Count(events, i)
    decreases |more|
  {
    if more == [] {
      assert events + more == events;
    } else {
      var init, last := more[..|more| - 1], more[|more| - 1];
      assert last in more && events + more == events + init + [last];
      CountQuiet(events, init, i);
      CountConcat(events + init, [last], i);
      CountOne(last, i);
    }
  }

  lemma {:induction false} UnwatchedIgnored(e: Event)
    requires e.path.dir.ConfigDir? && !Watched(e.path)
    ensures InterestOf(e) == Ignored
  {}

  /** Events on files that are no configurations make the loop do nothing. */
  lemma {:induction false} QuietCounts(events: seq<Event>, more: seq<Event>)
    requires forall e <- more :: e.path.dir.ConfigDir? && !Watched(e.path)
    ensures forall i :: i != Ignored ==> Count(events + more, i) == Count(events, i)
  {
    forall e <- more ensures InterestOf(e) == Ignored {
      UnwatchedIgnored(e);
    }
    forall i | i != Ignored ensures Count(events + more, i) == Count(events, i) {
      CountQuiet(events, more, i);
    }
  }

  // ---- The steps of a rewrite ------------------------------------------------------------

  lemma {:induction false} WriteEvents(d: Disk, p: Path, c: Content) returns (more: seq<Event>)
    requires WriteFile(d, p, c).Some?
    ensures WriteFile(d, p, c).value.events == d.events + more && forall e <- more :: e.path == p
  {
    more := (if p in d.files then [] else [Event(p, {Create})]) + [Event(p, {Write})];
    assert WriteFile(d, p, c).value.events == d.events + more;
  }

  lemma {:induction false} WritingLess(s: Sys)
    requires s.pc.Busy? && s.pc.stage == Writing && Ready(s)
    ensures Less(Measure(MicroStep(s)), Measure(s))
  {
    var plan, s' := s.pc.plan, MicroStep(s);
    OtherStepsKeep(s);
    UnrecordedFrame(s, s');
    if s'.pc.Busy? {
      PathFacts(plan.src);
      TempUnwatched(plan.dst);
      var more := WriteEvents(s.disk, Temp(plan.dst), plan.merged);
      QuietCounts(s.disk.events, more);
    }
  }

  lemma {:induction false} RenamedUnrecorded(s: Sys)
    requires s.pc.Busy? && s.pc.stage == Renaming && Ready(s) && MicroStep(s).pc.Busy?
    ensures |Unrecorded(MicroStep(s))| <= |Unrecorded(s)|
    ensures s.pc.plan.src == s.pc.plan.dst ==> |Unrecorded(MicroStep(s))| < |Unrecorded(s)|
  {
    var plan, s' := s.pc.plan, MicroStep(s);
    TempUnwatched(plan.dst);
    assert s'.disk.files == (s.disk.files - {Temp(plan.dst)})[plan.dst := plan.merged];
    assert plan.dst !in Unrecorded(s');
    assert Unrecorded(s') <= Unrecorded(s);
    SubsetSize(Unrecorded(s'), Unrecorded(s));
    assert plan.src == plan.dst ==> plan.src in Unrecorded(s);
  }

  lemma {:induction false} RenamedCounts(s: Sys)
    requires s.pc.Busy? && s.pc.stage == Renaming && Ready(s) && MicroStep(s).pc.Busy?
    ensures Count(MicroStep(s).disk.events, TokenChange) == Count(s.disk.events, TokenChange)
    ensures Count(MicroStep(s).disk.events, ConfChange) == Count(s.disk.events, ConfChange)
  {
    var plan, events := s.pc.plan, s.disk.events;
    var more := [Event(Temp(plan.dst), {Rename}), Event(plan.dst, {Create})];
    PathFacts(plan.src);
    TempUnwatched(plan.dst);
    assert MicroStep(s).disk.events == events + more;
    UnwatchedIgnored(more[0]);
    CountQuiet(events, more, TokenChange);
    CountQuiet(events, more, ConfChange);
  }

  lemma {:induction false} RenamingLess(s: Sys)
    requires s.pc.Busy? && s.pc.stage == Renaming && Ready(s)
    ensures Less(Measure(MicroStep(s)), Measure(s))
  {
    var s' := MicroStep(s);
    if s'.pc.Busy? {
      RenamedUnrecorded(s);
      RenamedCounts(s);
    } else {
      UnrecordedFrame(s, s');
    }
  }

  lemma {:induction false} LoggingLess(s: Sys)
    requires s.pc.Busy? && s.pc.stage == Logging && Ready(s)
    ensures Less(Measure(MicroStep(s)), Measure(s))
  {}

  lemma {:induction false} HashingLess(s: Sys)
    requires s.pc.Busy? && s.pc.stage == Hashing && Ready(s)
    ensures Less(Measure(MicroStep(s)), Measure(s))
  {
    assert Unrecorded(MicroStep(s)) <= Unrecorded(s);
    SubsetSize(Unrecorded(MicroStep(s)), Unrecorded(s));
  }

  /** A removal is no event the loop acts on. */
  lemma {:induction false} RemovalCounts(events: seq<Event>, p: Path)
    ensures forall i :: i != Ignored ==> Count(events + [Event(p, {Remove})], i) == Count(events, i)
  {
    var removed := Event(p, {Remove});
    assert InterestOf(removed).Ignored?;
    forall i | i != Ignored ensures Count(events + [removed], i) == Count(events, i) {
      CountQuiet(events, [removed], i);
    }
  }

  lemma {:induction false} RemovingOutcome(s: Sys)
    requires s.pc.Busy? && s.pc.stage == Removing
    ensures MicroStep(s).pc.Idle?
    ensures MicroStep(s).disk.events == s.disk.events
            || MicroStep(s).disk.events == s.disk.events + [Event(s.pc.plan.src, {Remove})]
  {}

  lemma {:induction false} RemovingLess(s: Sys)
    requires s.pc.Busy? && s.pc.stage == Removing && Ready(s)
    ensures Less(Measure(MicroStep(s)), Measure(s))
  {
    OtherStepsKeep(s);
    UnrecordedFrame(s, MicroStep(s));
    RemovingOutcome(s);
    RemovalCounts(s.disk.events, s.pc.plan.src);
  }

  lemma {:induction false} WrittenReady(s: Sys)
    requires s.pc.Busy? && s.pc.stage == Writing && Ready(s)
    ensures Ready(MicroStep(s)) && !MicroStep(s).pc.Down?
  {}

  lemma {:induction false} MicroReady(s: Sys)
    requires s.pc.Busy? && Ready(s)
    ensures Ready(MicroStep(s)) && !MicroStep(s).pc.Down?
  {
    if s.pc.stage == Writing {
      WrittenReady(s);
    } else {
      MicroShape(s);
    }
  }

  lemma {:induction false} MicroRank(s: Sys)
    requires s.pc.Busy?
    ensures Rank(MicroStep(s).pc) < Rank(s.pc)
  {}

  lemma {:induction false} MicroLess(s: Sys)
    requires s.pc.Busy? && Ready(s)
    ensures Less(Measure(MicroStep(s)), Measure(s))
  {
    match s.pc.stage {
      case Writing => WritingLess(s);
      case Renaming => RenamingLess(s);
      case Logging => LoggingLess(s);
      case Hashing => HashingLess(s);
      case Removing => RemovingLess(s);
    }
  }

  // ---- Dispatching -----------------------------------------------------------------------

  lemma {:induction false} PoppedCounts(s: Sys)
    requires s.disk.events != [] && s.pc.Idle?
    ensures |Unrecorded(Popped(s))| <= |Unrecorded(s)|
    ensures forall i :: Count(s.disk.events, i) ==
                        Count(Popped(s).disk.events, i) + (if InterestOf(s.disk.events[0]) == i then 1 else 0)
  {
    UnrecordedFrame(s, Popped(s));
    forall i ensures Count(s.disk.events, i) ==
                     Count(Popped(s).disk.events, i) + (if InterestOf(s.disk.events[0]) == i then 1 else 0)
    {
      CountPopped(s.disk.events, i);
    }
  }

  lemma {:induction false} K8sEvents(cfg: Config, s: Sys) returns (more: seq<Event>)
    ensures ReconfigureK8s(cfg, s).disk.events == s.disk.events + more
    ensures forall e <- more :: e.path in {cfg.kubeconfig, Temp(cfg.kubeconfig)}
  {
    var temp := Temp(cfg.kubeconfig);
    more := [];
    if WriteFile(s.disk, temp, cfg.kubeText).Some? {
      more := WriteEvents(s.disk, temp, cfg.kubeText);
      var d := WriteFile(s.disk, temp, cfg.kubeText).value;
      if RenameFile(d, temp, cfg.kubeconfig).Some? {
        more := more + [Event(temp, {Rename}), Event(cfg.kubeconfig, {Create})];
      }
    }
  }

  lemma {:induction false} K8sLess(cfg: Config, s: Sys)
    requires s.pc.Idle? && Shape(s) && cfg.kubeconfig.dir == ConfigDir && KindOf(cfg.kubeconfig).NotCni?
    ensures var s' := ReconfigureK8s(cfg, s);
            && Shape(s') && s'.pc.Idle? && |Unrecorded(s')| <= |Unrecorded(s)|
            && Count(s'.disk.events, TokenChange) == Count(s.disk.events, TokenChange)
  {
    K8sKeeps(cfg, s);
    UnrecordedFrame(s, ReconfigureK8s(cfg, s));
    var more := K8sEvents(cfg, s);
    TempUnwatched(cfg.kubeconfig);
    QuietCounts(s.disk.events, more);
  }

  lemma {:induction false} InterestOfConfiguration(e: Event)
    requires Watched(e.path) && Applies(e)
    ensures InterestOf(e) == if KindOf(e.path).Conf? then ConfChange else ConflistChange
    ensures Destination(e.path) != e.path <==> KindOf(e.path).Conf?
  {
    PathFacts(e.path);
  }

  /** A state that differs from the popped one at most by a planned rewrite of the popped event's
      file. */
  lemma {:induction false} BegunLess(s: Sys, s': Sys)
    requires s.pc.Idle? && s.disk.events != [] && Applies(s.disk.events[0]) && Watched(s.disk.events[0].path)
    requires s'.disk == Popped(s).disk && s'.hashes == s.hashes
    requires s'.pc.Idle? || (s'.pc.Busy? && s'.pc.stage == Writing && s'.pc.plan.src == s.disk.events[0].path
                             && s'.pc.plan.dst == Destination(s.disk.events[0].path))
    ensures Less(Measure(s'), Measure(s))
  {
    PoppedCounts(s);
    InterestOfConfiguration(s.disk.events[0]);
    UnrecordedFrame(s, s');
    assert Count(s'.disk.events, TokenChange) == Count(s.disk.events, TokenChange);
  }

  lemma {:induction false} ConfigurationLess(cfg: Config, s: Sys)
    requires s.pc.Idle? && s.disk.events != [] && Ready(s) && Applies(s.disk.events[0])
    requires Watched(s.disk.events[0].path)
    ensures var s' := BeginReconfigure(cfg, Popped(s), s.disk.events[0].path);
            Ready(s') && !s'.pc.Down? && Less(Measure(s'), Measure(s))
  {
    BeginOutcome(cfg, Popped(s), s.disk.events[0].path);
    BegunLess(s, BeginReconfigure(cfg, Popped(s), s.disk.events[0].path));
  }

  lemma {:induction false} IgnoredLess(s: Sys)
    requires s.pc.Idle? && s.disk.events != [] && Ready(s)
    ensures Ready(Popped(s)) && Less(Measure(Popped(s)), Measure(s))
  {
    PoppedCounts(s);
  }

  lemma {:induction false} TokenLess(cfg: Config, s: Sys)
    requires s.pc.Idle? && s.disk.events != [] && Ready(s) && InterestOf(s.disk.events[0]).TokenChange?
    requires cfg.kubeconfig.dir == ConfigDir && KindOf(cfg.kubeconfig).NotCni?
    ensures var s' := ReconfigureK8s(cfg, Popped(s)); Ready(s') && !s'.pc.Down? && Less(Measure(s'), Measure(s))
  {
    PoppedCounts(s);
    K8sLess(cfg, Popped(s));
  }

  lemma {:induction false} DispatchLess(cfg: Config, s: Sys)
    requires s.pc.Idle? && s.disk.events != [] && Ready(s)
    requires cfg.kubeconfig.dir == ConfigDir && KindOf(cfg.kubeconfig).NotCni?
    ensures var s' := DispatchNext(cfg, s); Ready(s') && !s'.pc.Down? && Less(Measure(s'), Measure(s))
  {
    var e := s.disk.events[0];
    PathFacts(e.path);
    if Applies(e) && e.path.dir.ConfigDir? && IsCniFile(e.path) {
      ConfigurationLess(cfg, s);
    } else if Applies(e) && e.path.dir.TokenDir? && HasSuffix(e.path.base, "..data") {
      TokenLess(cfg, s);
    } else {
      IgnoredLess(s);
    }
  }

  /** Every step of the loop strictly lowers the measure, handler errors included. */
  lemma {:induction false} LoopStepLess(cfg: Config, s: Sys)
    requires Ready(s) && (s.pc.Busy? || (s.pc.Idle? && s.disk.events != []))
    requires cfg.kubeconfig.dir == ConfigDir && KindOf(cfg.kubeconfig).NotCni?
    ensures var s' := LoopStep(cfg, s);
            Ready(s') && !s'.pc.Down? && Less(Measure(s'), Measure(s))
  {
    if s.pc.Idle? {
      DispatchLess(cfg, s);
    } else {
      MicroReady(s);
      MicroLess(s);
    }
  }

  function LoopStep(cfg: Config, s: Sys): Sys
    requires s.pc.Busy? || s.disk.events != []
  {
    if s.pc.Busy? then MicroStep(s) else DispatchNext(cfg, s)
  }

  /** The event loop without further external writes: it comes to rest, with nothing pending. */
  ghost function Drain(cfg: Config, s: Sys): (r: Sys)
    requires Ready(s) && !s.pc.Down?
    requires cfg.kubeconfig.dir == ConfigDir && KindOf(cfg.kubeconfig).NotCni?
    ensures r.pc.Idle? && r.disk.events == []
    decreases Measure(s).0, Measure(s).1, Measure(s).2, Measure(s).3, Measure(s).4, Measure(s).5
  {
    if s.pc.Idle? && s.disk.events == [] then s
    else
      LoopStepLess(cfg, s);
      Drain(cfg, LoopStep(cfg, s))
  }

  /** Draining is a run of whole handlers. */
  lemma {:induction false} DrainByHandlers(cfg: Config, s: Sys)
    requires Ready(s) && !s.pc.Down?
    requires cfg.kubeconfig.dir == ConfigDir && KindOf(cfg.kubeconfig).NotCni?
    ensures Ready(RunHandler(s)) && RunHandler(s).pc.Idle? && Drain(cfg, RunHandler(s)) == Drain(cfg, s)
    decreases Rank(s.pc)
  {
    if s.pc.Busy? {
      MicroReady(s);
      MicroRank(s);
      DrainByHandlers(cfg, MicroStep(s));
      assert LoopStep(cfg, s) == MicroStep(s);
    }
  }
}

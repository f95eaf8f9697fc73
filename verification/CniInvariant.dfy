/** What every reachable state of the installer keeps, through handlers, external writers, crashes and
    restarts, and what that means when nothing is left to do (internal/cni). */
module CniInvariant {
  import opened Text
  import opened CniConfig
  import opened CniPaths
  import opened CniMachine

  // ---- What every reachable state keeps --------------------------------------------------

  /** The configuration that is injected is the linkerd plugin, and the other files the installer
      writes are no CNI configurations. */
  ghost predicate ConfigOk(cfg: Config, linkerd: Json) {
    && IsLinkerd(linkerd)
    && FirstSource(cfg.sources).Some? && UnmarshalMap(FirstSource(cfg.sources).value) == Ok(linkerd)
    && cfg.kubeconfig.dir == ConfigDir && KindOf(cfg.kubeconfig).NotCni?
    && forall b <- cfg.binaries :: b.0.dir == BinDir
  }

  /** A CNI configuration in the watched directory. */
  predicate Watched(p: Path) { p.dir.ConfigDir? && !KindOf(p).NotCni? }

  predicate Pending(events: seq<Event>, p: Path) {
    exists e <- events :: e.path == p && Applies(e)
  }

  ghost predicate SettledContent(c: Content, linkerd: Json, origin: Content) {
    && UnmarshalMap(c).Ok? && UnmarshalMap(origin).Ok?
    && Settled(UnmarshalMap(c).value, linkerd, UnmarshalMap(origin).value)
  }

  /** A file is as its external writer left it, or settled from that. */
  ghost predicate Derived(c: Content, linkerd: Json, origin: Content) {
    c == origin || SettledContent(c, linkerd, origin)
  }

  ghost predicate FilesDerived(linkerd: Json, s: Sys) {
    forall p <- s.disk.files.Keys :: Watched(p) ==> p in s.origin && Derived(s.disk.files[p], linkerd, s.origin[p])
  }

  /** A recorded digest is that of a list configuration with linkerd last, under its own name. */
  ghost predicate FinalDigest(d: Digest, linkerd: Json) {
    d.DigestOf? && SettledContent(d.content, linkerd, d.content)
  }

  /** A rewrite under way merges its source into a settled configuration. */
  ghost predicate PlanSettles(linkerd: Json, s: Sys) {
    s.pc.Busy? ==>
      && s.pc.plan.src in s.origin
      && SettledContent(s.pc.plan.merged, linkerd, s.origin[s.pc.plan.src])
      && SettledContent(s.pc.plan.merged, linkerd, s.pc.plan.merged)
  }

  ghost predicate ContentInv(linkerd: Json, s: Sys) {
    && FilesDerived(linkerd, s)
    && (forall p <- s.hashes.Keys :: FinalDigest(s.hashes[p], linkerd))
    && PlanSettles(linkerd, s)
  }

  /** Where a rewrite under way stands: its source is still there, its destination holds the merged
      content from the rename on, and its digest is recorded before the source is removed. */
  ghost predicate Shape(s: Sys) {
    && (s.pc.Down? ==> s.disk.events == [] && s.hashes == map[])
    && (forall p <- s.hashes.Keys :: p.dir.ConfigDir? && KindOf(p).Conflist?)
    && (s.pc.Busy? ==>
          var plan, stage := s.pc.plan, s.pc.stage;
          && Watched(plan.src) && plan.dst == Destination(plan.src) && plan.src in s.disk.files
          && (stage == Renaming ==> Temp(plan.dst) in s.disk.files && s.disk.files[Temp(plan.dst)] == plan.merged)
          && (stage in {Logging, Hashing, Removing} ==>
                plan.dst in s.disk.files && s.disk.files[plan.dst] == plan.merged)
          && (stage == Removing ==> plan.src != plan.dst && Lookup(s.hashes, plan.dst) == DigestOf(plan.merged)))
  }

  /** Every configuration that does not match its recorded digest is about to be looked at. */
  ghost predicate Accounted(s: Sys, p: Path) {
    || (p in s.disk.files && Lookup(s.hashes, p) == DigestOf(s.disk.files[p]))
    || Pending(s.disk.events, p)
    || (s.pc.Busy? && s.pc.plan.src == p)
  }

  ghost predicate TrackInv(s: Sys) {
    !s.pc.Down? && !s.failed ==> forall p <- s.disk.files.Keys :: Watched(p) ==> Accounted(s, p)
  }

  /** The kind of entry a path is logged as. */
  function EntryFor(p: Path): Entry {
    if Watched(p) then CniFile(p) else if p.dir.ConfigDir? then K8sFile(p) else InstalledFile(p)
  }

  ghost predicate Distinct(log: seq<Entry>) {
    forall i, j :: 0 <= i < j < |log| ==> log[i].path != log[j].path
  }

  /** Log entries have distinct names, which are those of the files put in place: all of them but
      the one just renamed, about to be logged. Every file with a digest is logged. */
  ghost predicate LogInv(s: Sys) {
    && Distinct(s.log)
    && (forall e <- s.log :: e == EntryFor(e.path))
    && (forall p <- s.hashes.Keys :: p in Filenames(s.log))
    && (if s.pc.Busy? && s.pc.stage.Logging? then Filenames(s.log) + {s.pc.plan.dst} == s.written
        else Filenames(s.log) == s.written)
    && (s.pc.Busy? && s.pc.stage in {Hashing, Removing} ==> s.pc.plan.dst in Filenames(s.log))
  }

  /** What holds in every reachable state. */
  ghost predicate Inv(linkerd: Json, s: Sys) {
    Shape(s) && ContentInv(linkerd, s) && TrackInv(s) && LogInv(s)
  }

  // ---- Preservation: the writing steps ---------------------------------------------------

  lemma {:induction false} AppendLogs(log: seq<Entry>, e: Entry)
    requires Distinct(log)
    ensures Distinct(AppendEntry(log, e)) && Filenames(AppendEntry(log, e)) == Filenames(log) + {e.path}
    ensures forall x <- AppendEntry(log, e) :: x in log || x == e
  {}

  lemma {:induction false} WrittenShape(s: Sys)
    requires s.pc.Busy? && s.pc.stage == Writing && Shape(s)
    ensures Shape(MicroStep(s))
  {}

  lemma {:induction false} RenamedShape(s: Sys)
    requires s.pc.Busy? && s.pc.stage == Renaming && Shape(s)
    ensures Shape(MicroStep(s))
  {}

  lemma {:induction false} MicroShape(s: Sys)
    requires s.pc.Busy? && Shape(s)
    ensures Shape(MicroStep(s))
  {
    var plan := s.pc.plan;
    PathFacts(plan.src);
    PathFacts(plan.dst);
    match s.pc.stage {
      case Writing => WrittenShape(s);
      case Renaming => RenamedShape(s);
      case _ =>
    }
  }

  lemma {:induction false} TempUnwatched(p: Path)
    ensures !Watched(Temp(p))
  {
    PathFacts(p);
  }

  /** `s'` has the configurations of `s`, or fewer. */
  ghost predicate KeepsConfigurations(s: Sys, s': Sys) {
    forall p <- s'.disk.files.Keys :: Watched(p) ==> p in s.disk.files && s'.disk.files[p] == s.disk.files[p]
  }

  lemma {:induction false} ContentFrame(linkerd: Json, s: Sys, s': Sys)
    requires ContentInv(linkerd, s) && KeepsConfigurations(s, s')
    requires s'.origin == s.origin && (s'.hashes == s.hashes || s'.hashes == map[])
    requires s'.pc.Busy? ==> s.pc.Busy? && s'.pc.plan == s.pc.plan
    ensures ContentInv(linkerd, s')
  {}

  lemma {:induction false} RenamedContent(linkerd: Json, s: Sys)
    requires s.pc.Busy? && s.pc.stage == Renaming && Shape(s) && ContentInv(linkerd, s)
    ensures ContentInv(linkerd, MicroStep(s))
  {}

  /** A step other than the rename touches no configuration but the source it removes. */
  lemma {:induction false} OtherStepsKeep(s: Sys)
    requires s.pc.Busy? && s.pc.stage != Renaming
    ensures var s' := MicroStep(s);
            && KeepsConfigurations(s, s') && s'.origin == s.origin && s.disk.events <= s'.disk.events
            && s'.written == s.written && (s'.pc.Busy? ==> s'.pc.plan == s.pc.plan) && !s'.pc.Down?
            && (s.pc.stage != Hashing ==> s'.hashes == s.hashes)
            && (s.pc.stage != Logging ==> s'.log == s.log)
  {
    TempUnwatched(s.pc.plan.dst);
  }

  /** The files after each step of a rewrite. */
  ghost predicate FilesFollow(files: map<Path, Content>, files': map<Path, Content>, stage: Stage, plan: Plan) {
    || files' == files
    || (stage == Writing && files' == files[Temp(plan.dst) := plan.merged])
    || (stage == Renaming && files' == (files - {Temp(plan.dst)})[plan.dst := plan.merged])
    || (stage == Removing && files' == files - {plan.src})
  }

  lemma {:induction false} WrittenFiles(s: Sys)
    requires s.pc.Busy? && s.pc.stage == Writing
    ensures FilesFollow(s.disk.files, MicroStep(s).disk.files, s.pc.stage, s.pc.plan)
  {}

  lemma {:induction false} RenamedFiles(s: Sys)
    requires s.pc.Busy? && s.pc.stage == Renaming && Shape(s)
    ensures FilesFollow(s.disk.files, MicroStep(s).disk.files, s.pc.stage, s.pc.plan)
  {}

  lemma {:induction false} MicroPlan(s: Sys)
    requires s.pc.Busy? && MicroStep(s).pc.Busy?
    ensures MicroStep(s).pc.plan == s.pc.plan && s.pc.stage != Removing
  {}

  lemma {:induction false} MicroFiles(s: Sys)
    requires s.pc.Busy? && Shape(s)
    ensures FilesFollow(s.disk.files, MicroStep(s).disk.files, s.pc.stage, s.pc.plan)
  {
    if s.pc.stage == Writing {
      WrittenFiles(s);
    } else if s.pc.stage == Renaming {
      RenamedFiles(s);
    }
  }

  lemma {:induction false} MicroContent(linkerd: Json, s: Sys)
    requires s.pc.Busy? && Shape(s) && ContentInv(linkerd, s)
    ensures ContentInv(linkerd, MicroStep(s))
  {
    if s.pc.stage == Renaming {
      RenamedContent(linkerd, s);
    } else {
      OtherStepsKeep(s);
      var s' := MicroStep(s);
      if s.pc.stage == Hashing {
        ContentFrame(linkerd, s, s'.(hashes := s.hashes));
      } else {
        ContentFrame(linkerd, s, s');
      }
    }
  }

  lemma {:induction false} LoggedLog(s: Sys)
    requires s.pc.Busy? && s.pc.stage == Logging && Shape(s) && LogInv(s)
    ensures LogInv(MicroStep(s))
  {
    var plan, s' := s.pc.plan, MicroStep(s);
    PathFacts(plan.src);
    AppendLogs(s.log, CniFile(plan.dst));
    assert Filenames(s'.log) == s'.written;
  }

  lemma {:induction false} MicroLog(s: Sys)
    requires s.pc.Busy? && Shape(s) && LogInv(s)
    ensures LogInv(MicroStep(s))
  {
    if s.pc.stage == Logging {
      LoggedLog(s);
    } else if s.pc.stage != Renaming {
      OtherStepsKeep(s);
    }
  }

  lemma {:induction false} PendingAfter(events: seq<Event>, more: seq<Event>, p: Path)
    ensures Pending(events, p) ==> Pending(events + more, p)
    ensures Pending(more, p) ==> Pending(events + more, p)
  {}

  lemma {:induction false} CreationApplies(p: Path)
    ensures Applies(Event(p, {Create})) && Applies(Event(p, {Write}))
  {
    assert Create in {Create} * {Create, Rename, Write};
    assert Write in {Write} * {Create, Rename, Write};
  }

  lemma {:induction false} TrackFrame(s: Sys, s': Sys, more: seq<Event>)
    requires TrackInv(s) && KeepsConfigurations(s, s') && s'.hashes == s.hashes && !s.pc.Down?
    requires s'.disk.events == s.disk.events + more && (!s'.failed ==> !s.failed)
    requires s.pc.Busy? && !s'.failed ==>
               (s'.pc.Busy? && s'.pc.plan == s.pc.plan) || s.pc.plan.src !in s'.disk.files
    ensures TrackInv(s')
  {}

  lemma {:induction false} RenamedTrack(s: Sys)
    requires s.pc.Busy? && s.pc.stage == Renaming && Shape(s) && TrackInv(s)
    ensures TrackInv(MicroStep(s))
  {
    var plan, s' := s.pc.plan, MicroStep(s);
    if s'.pc.Busy? && !s'.failed {
      TempUnwatched(plan.dst);
      var created := Event(plan.dst, {Create});
      var more := [Event(Temp(plan.dst), {Rename}), created];
      CreationApplies(plan.dst);
      assert created in more && s'.disk.events == s.disk.events + more;
      forall p <- s'.disk.files.Keys | Watched(p) ensures Accounted(s', p) {
        PendingAfter(s.disk.events, more, p);
        if p != plan.dst {
          assert s'.disk.files[p] == s.disk.files[p] && Accounted(s, p);
        }
      }
    }
  }

  lemma {:induction false} HashedTrack(s: Sys)
    requires s.pc.Busy? && s.pc.stage == Hashing && Shape(s) && TrackInv(s)
    ensures TrackInv(MicroStep(s))
  {}

  lemma {:induction false} MicroTrack(s: Sys)
    requires s.pc.Busy? && Shape(s) && TrackInv(s)
    ensures TrackInv(MicroStep(s))
  {
    match s.pc.stage {
      case Renaming => RenamedTrack(s);
      case Hashing => HashedTrack(s);
      case _ =>
        var s' := MicroStep(s);
        OtherStepsKeep(s);
        TrackFrame(s, s', s'.disk.events[|s.disk.events|..]);
    }
  }

  // ---- Preservation: dispatching ---------------------------------------------------------

  /** Taking an event off the queue: only the file it announces may lose its last mention. */
  function Popped(s: Sys): Sys
    requires s.disk.events != []
  {
    s.(disk := s.disk.(events := s.disk.events[1..]))
  }

  lemma {:induction false} PoppedInv(linkerd: Json, s: Sys)
    requires s.disk.events != [] && s.pc.Idle? && Inv(linkerd, s)
    ensures Shape(Popped(s)) && ContentInv(linkerd, Popped(s)) && LogInv(Popped(s))
    ensures !s.failed ==>
              forall p <- s.disk.files.Keys ::
                Watched(p) && !(s.disk.events[0].path == p && Applies(s.disk.events[0])) ==> Accounted(Popped(s), p)
  {}

  /** Injecting the chosen configuration into a derived file settles it. */
  lemma {:induction false} InjectContentSettles(c: Content, configuration: Content, linkerd: Json, origin: Content)
    requires IsLinkerd(linkerd) && UnmarshalMap(configuration) == Ok(linkerd)
    requires InjectContent(c, configuration).Ok? && Derived(c, linkerd, origin)
    ensures var merged := InjectContent(c, configuration).value;
            SettledContent(merged, linkerd, origin) && SettledContent(merged, linkerd, merged)
  {
    var doc, from := UnmarshalMap(c).value, UnmarshalMap(origin).value;
    if c != origin {
      InjectKeepsSettled(doc, linkerd, from);
    } else if IsSingle(doc) {
      InjectSettlesSingle(doc, linkerd);
    } else {
      InjectSettlesList(doc, linkerd);
    }
    SettledFromItself(InjectDoc(doc, linkerd).value, linkerd, from);
  }

  /** What a planned rewrite merges. */
  lemma {:induction false} BeginMerges(cfg: Config, s: Sys, name: Path, merged: Content)
    requires s.pc.Idle? && BeginReconfigure(cfg, s, name).pc == Busy(Writing, Plan(name, Destination(name), merged))
    ensures name in s.disk.files && FirstSource(cfg.sources).Some?
    ensures InjectContent(s.disk.files[name], FirstSource(cfg.sources).value) == Ok(merged)
  {}

  lemma {:induction false} PlannedContent(linkerd: Json, s: Sys, plan: Plan)
    requires ContentInv(linkerd, s) && plan.src in s.origin
    requires SettledContent(plan.merged, linkerd, s.origin[plan.src])
    requires SettledContent(plan.merged, linkerd, plan.merged)
    ensures ContentInv(linkerd, s.(pc := Busy(Writing, plan)))
  {}

  lemma {:induction false} BeginContent(cfg: Config, linkerd: Json, s: Sys, name: Path)
    requires ConfigOk(cfg, linkerd) && Watched(name) && s.pc.Idle? && ContentInv(linkerd, s)
    ensures ContentInv(linkerd, BeginReconfigure(cfg, s, name))
  {
    var s' := BeginReconfigure(cfg, s, name);
    BeginOutcome(cfg, s, name);
    if s'.pc.Busy? {
      var merged := s'.pc.plan.merged;
      BeginMerges(cfg, s, name, merged);
      InjectContentSettles(s.disk.files[name], FirstSource(cfg.sources).value, linkerd, s.origin[name]);
      PlannedContent(linkerd, s, Plan(name, Destination(name), merged));
    } else {
      ContentFrame(linkerd, s, s');
    }
  }

  lemma {:induction false} BeginRest(cfg: Config, s: Sys, name: Path)
    requires Watched(name) && s.pc.Idle? && Shape(s) && LogInv(s)
    requires !s.failed ==> forall p <- s.disk.files.Keys :: Watched(p) && p != name ==> Accounted(s, p)
    ensures Shape(BeginReconfigure(cfg, s, name)) && LogInv(BeginReconfigure(cfg, s, name))
    ensures TrackInv(BeginReconfigure(cfg, s, name))
  {
    BeginOutcome(cfg, s, name);
  }

  lemma {:induction false} BeginOutcome(cfg: Config, s: Sys, name: Path)
    ensures var s' := BeginReconfigure(cfg, s, name);
            || (s' == s && (name !in s.disk.files || Lookup(s.hashes, name) == DigestOf(s.disk.files[name])))
            || s' == Fail(s)
            || (name in s.disk.files && Lookup(s.hashes, name) != DigestOf(s.disk.files[name])
                && s'.pc.Busy? && s' == s.(pc := Busy(Writing, Plan(name, Destination(name), s'.pc.plan.merged))))
  {}

  /** Writing the kubeconfig touches no configuration. */
  lemma {:induction false} K8sKeeps(cfg: Config, s: Sys)
    requires !Watched(cfg.kubeconfig)
    ensures var s' := ReconfigureK8s(cfg, s);
            && KeepsConfigurations(s, s') && s'.origin == s.origin && s'.hashes == s.hashes
            && s.disk.events <= s'.disk.events && (s'.pc == s.pc || s'.pc == Idle) && (!s'.failed ==> !s.failed)
            && (forall p <- s.disk.files.Keys :: Watched(p) ==> p in s'.disk.files)
  {
    TempUnwatched(cfg.kubeconfig);
  }

  lemma {:induction false} K8sInv(cfg: Config, linkerd: Json, s: Sys)
    requires ConfigOk(cfg, linkerd) && s.pc.Idle? && Inv(linkerd, s)
    ensures Inv(linkerd, ReconfigureK8s(cfg, s))
  {
    var s' := ReconfigureK8s(cfg, s);
    K8sKeeps(cfg, s);
    ContentFrame(linkerd, s, s');
    TrackFrame(s, s', s'.disk.events[|s.disk.events|..]);
    AppendLogs(s.log, K8sFile(cfg.kubeconfig));
  }

  lemma {:induction false} DispatchInv(cfg: Config, linkerd: Json, s: Sys)
    requires ConfigOk(cfg, linkerd) && s.pc.Idle? && s.disk.events != [] && Inv(linkerd, s)
    ensures Inv(linkerd, DispatchNext(cfg, s))
  {
    var e := s.disk.events[0];
    PathFacts(e.path);
    PoppedInv(linkerd, s);
    if Applies(e) && e.path.dir.ConfigDir? && IsCniFile(e.path) {
      BeginContent(cfg, linkerd, Popped(s), e.path);
      BeginRest(cfg, Popped(s), e.path);
    } else if Applies(e) && e.path.dir.TokenDir? && HasSuffix(e.path.base, "..data") {
      K8sInv(cfg, linkerd, Popped(s));
    }
  }

  // ---- Preservation: starting, dying and the environment ---------------------------------

  lemma {:induction false} BinariesInstalled(files: map<Path, Content>, binaries: seq<(Path, Content)>, p: Path)
    requires forall b <- binaries :: b.0.dir != p.dir
    ensures p in InstallBinaries(files, binaries) <==> p in files
    ensures p in files ==> InstallBinaries(files, binaries)[p] == files[p]
  {
    if binaries != [] {
      assert binaries[|binaries| - 1] in binaries;
      BinariesInstalled(files, binaries[..|binaries| - 1], p);
    }
  }

  lemma {:induction false} BinariesLogged(binaries: seq<(Path, Content)>)
    requires forall b <- binaries :: b.0.dir == BinDir
    ensures Distinct(LogBinaries(binaries)) && forall e <- LogBinaries(binaries) :: e == EntryFor(e.path)
    ensures Filenames(LogBinaries(binaries)) == set b <- binaries :: b.0
  {
    if binaries != [] {
      var init, last := binaries[..|binaries| - 1], binaries[|binaries| - 1];
      assert binaries == init + [last] && last in binaries;
      BinariesLogged(init);
      AppendLogs(LogBinaries(init), InstalledFile(last.0));
      assert (set b <- binaries :: b.0) == (set b <- init :: b.0) + {last.0};
    }
  }

  lemma {:induction false} BootInv(cfg: Config, linkerd: Json, s: Sys, entries: seq<Path>)
    requires ConfigOk(cfg, linkerd) && Enabled(cfg, s, Boot(entries)) && Inv(linkerd, s)
    ensures Inv(linkerd, Started(cfg, s, entries))
  {
    var s' := Started(cfg, s, entries);
    BinariesLogged(cfg.binaries);
    forall p | Watched(p)
      ensures p in s'.disk.files <==> p in s.disk.files
      ensures p in s.disk.files ==> s'.disk.files[p] == s.disk.files[p]
    {
      BinariesInstalled(s.disk.files, cfg.binaries, p);
    }
    ContentFrame(linkerd, s, s');
    forall p <- s'.disk.files.Keys | Watched(p) ensures Accounted(s', p) {
      var k :| 0 <= k < |entries| && entries[k] == p;
      CreationApplies(p);
      assert EntryEvents(entries)[k] == Event(p, {Write});
      PendingAfter([Event(DATA, {Create})], EntryEvents(entries), p);
    }
  }

  lemma {:induction false} CrashInv(linkerd: Json, s: Sys)
    requires Inv(linkerd, s)
    ensures Inv(linkerd, Crashed(s))
  {}

  lemma {:induction false} WriteInv(cfg: Config, linkerd: Json, s: Sys, p: Path, c: Content)
    requires !s.pc.Busy? && Inv(linkerd, s)
    ensures Inv(linkerd, Apply(cfg, s, ExternalWrite(p, c)))
  {
    var s' := Apply(cfg, s, ExternalWrite(p, c));
    if s.pc.Idle? && !s.failed {
      var created := if p in s.disk.files then [] else [Event(p, {Create})];
      CreationApplies(p);
      forall q <- s'.disk.files.Keys | Watched(q) ensures Accounted(s', q) {
        PendingAfter(s.disk.events, created, q);
        PendingAfter(s.disk.events + created, [Event(p, {Write})], q);
        if q == p {
          assert Event(p, {Write}) in [Event(p, {Write})];
        } else {
          assert Accounted(s, q);
        }
      }
    }
  }

  lemma {:induction false} DeleteInv(cfg: Config, linkerd: Json, s: Sys, p: Path)
    requires !s.pc.Busy? && Inv(linkerd, s)
    ensures Inv(linkerd, Apply(cfg, s, ExternalDelete(p)))
  {}

  lemma {:induction false} NotifyInv(cfg: Config, linkerd: Json, s: Sys, e: Event)
    requires !s.pc.Down? && Inv(linkerd, s)
    ensures Inv(linkerd, Apply(cfg, s, Notification(e)))
  {}

  lemma {:induction false} BreakInv(cfg: Config, linkerd: Json, s: Sys, broken: set<Path>)
    requires Inv(linkerd, s)
    ensures Inv(linkerd, Apply(cfg, s, Breakage(broken)))
  {}

  /** Every step keeps the invariant. */
  lemma {:induction false} StepInv(cfg: Config, linkerd: Json, s: Sys, step: Step)
    requires ConfigOk(cfg, linkerd) && Enabled(cfg, s, step) && Inv(linkerd, s)
    ensures Inv(linkerd, Apply(cfg, s, step))
  {
    match step {
      case Dispatch => DispatchInv(cfg, linkerd, s);
      case Micro => MicroShape(s); MicroContent(linkerd, s); MicroTrack(s); MicroLog(s);
      case Crash => CrashInv(linkerd, s);
      case Boot(entries) => BootInv(cfg, linkerd, s, entries);
      case ExternalWrite(p, c) => WriteInv(cfg, linkerd, s, p, c);
      case ExternalDelete(p) => DeleteInv(cfg, linkerd, s, p);
      case Notification(e) => NotifyInv(cfg, linkerd, s, e);
      case Breakage(broken) => BreakInv(cfg, linkerd, s, broken);
    }
  }

  lemma {:induction false} RunInv(cfg: Config, linkerd: Json, states: seq<Sys>, steps: seq<Step>, k: nat)
    requires ConfigOk(cfg, linkerd) && IsRun(cfg, states, steps) && k < |states|
    ensures Inv(linkerd, states[k])
  {
    if k > 0 {
      RunInv(cfg, linkerd, states, steps, k - 1);
      assert StepsAt(cfg, states, steps, k - 1);
      StepInv(cfg, linkerd, states[k - 1], steps[k - 1]);
    }
  }

  // ---- Correct at quiescence -------------------------------------------------------------

  /** Nothing under way and nothing pending, without a handler error since the start. */
  predicate Quiescent(s: Sys) { s.pc.Idle? && s.disk.events == [] && !s.failed }

  /** Over every run, whatever external writers, crashes and restarts do: at quiescence each
      configuration is a logged `.conflist` that ends in the linkerd plugin and keeps the other
      plugins, in order, and the other keys of the external version it stems from. */
  lemma {:induction false} QuiescentIsSettled(
    cfg: Config, linkerd: Json, states: seq<Sys>, steps: seq<Step>, k: nat, p: Path)
    requires ConfigOk(cfg, linkerd) && IsRun(cfg, states, steps) && k < |states|
    requires Quiescent(states[k]) && p in states[k].disk.files && Watched(p)
    ensures KindOf(p).Conflist? && CniFile(p) in states[k].log
    ensures p in states[k].origin && SettledContent(states[k].disk.files[p], linkerd, states[k].origin[p])
  {
    var s := states[k];
    RunInv(cfg, linkerd, states, steps, k);
    assert Accounted(s, p);
    assert p in Filenames(s.log);
  }

  /** An external update of a `.conflist` is lost when its `.conf` is still to be handled: the rewrite
      replaces whatever the `.conflist` held by what the `.conf` merges into. */
  lemma {:induction false} PendingConfOverwrites(cfg: Config, s: Sys, conf: Path, merged: Content)
    requires s.pc.Idle? && s.disk.events != [] && s.disk.events[0].path == conf && Applies(s.disk.events[0])
    requires conf.dir.ConfigDir? && KindOf(conf).Conf? && conf in s.disk.files && s.disk.broken == {}
    requires conf !in s.hashes && FirstSource(cfg.sources).Some?
    requires InjectContent(s.disk.files[conf], FirstSource(cfg.sources).value) == Ok(merged)
    ensures var s' := HandleEvent(cfg, s);
            && Destination(conf) in s'.disk.files && s'.disk.files[Destination(conf)] == merged
            && conf !in s'.disk.files && s'.pc.Idle?
  {
    PathFacts(conf);
    PathFacts(Destination(conf));
    TempUnwatched(Destination(conf));
    var s1 := DispatchNext(cfg, s);
    var s2 := MicroStep(s1);
    var s3 := MicroStep(s2);
    var s4 := MicroStep(s3);
    var s5 := MicroStep(s4);
    var s6 := MicroStep(s5);
    assert s1.pc == Busy(Writing, Plan(conf, Destination(conf), merged));
    assert s3.pc == Busy(Logging, s1.pc.plan) && s3.disk.files[Destination(conf)] == merged;
    assert conf in s3.disk.files;
    assert s5.pc == Busy(Removing, s1.pc.plan) && s6.pc == Idle;
    assert RunHandler(s6) == s6;
    assert RunHandler(s4) == RunHandler(s5) == s6;
    assert RunHandler(s2) == RunHandler(s3) == RunHandler(s4);
  }
}

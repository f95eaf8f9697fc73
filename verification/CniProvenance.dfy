/** Which external version of a configuration survives: over a whole run, with its crashes and
    restarts, the last one written (internal/cni/conf.go, watch_fs.go, run.go). */
module CniProvenance {
  import opened Text
  import opened CniConfig
  import opened CniPaths
  import opened CniInvariant
  import opened CniMachine

  /** The file is there and stems from the external version `c`. */
  ghost predicate Stems(s: Sys, p: Path, c: Content) {
    p in s.disk.files && p in s.origin && s.origin[p] == c
  }

  /** The rewrite of a `.conf` has put its `.conflist` in place but not yet removed it. */
  predicate Upgraded(s: Sys, conf: Path) {
    s.pc.Busy? && s.pc.plan.src == conf && s.pc.stage in {Logging, Hashing, Removing}
  }

  /** The pair of a `.conflist` and its `.conf` carries the version `c`: in the `.conf` as long as
      there is one, else in the `.conflist`, and in both while the one is being replaced. */
  ghost predicate Carries(s: Sys, list: Path, c: Content)
    requires KindOf(list).Conflist?
  {
    && (if ConfOf(list) in s.disk.files then Stems(s, ConfOf(list), c) else Stems(s, list, c))
    && (Upgraded(s, ConfOf(list)) ==> Stems(s, list, c))
  }

  ghost predicate SameFile(s: Sys, s': Sys, p: Path) {
    && (p in s.disk.files <==> p in s'.disk.files)
    && (p in s.origin <==> p in s'.origin) && (p in s.origin ==> s'.origin[p] == s.origin[p])
  }

  lemma {:induction false} CarriesFrame(s: Sys, s': Sys, list: Path, c: Content)
    requires KindOf(list).Conflist? && Carries(s, list, c)
    requires SameFile(s, s', ConfOf(list)) && SameFile(s, s', list)
    requires Upgraded(s', ConfOf(list)) ==> Upgraded(s, ConfOf(list))
    ensures Carries(s', list, c)
  {}

  /** A step of a rewrite other than the rename changes nothing about what files stem from. */
  lemma {:induction false} MicroOrigin(s: Sys)
    requires s.pc.Busy? && s.pc.stage != Renaming
    ensures var s' := MicroStep(s);
            && s'.origin == s.origin
            && (s'.pc.Busy? && s.pc.stage == Writing ==> s'.pc.stage == Renaming)
            && (s'.pc.Busy? && s.pc.stage == Logging ==> s'.pc.stage == Hashing)
            && (s'.pc.Idle? || s'.pc.Busy?)
  {}

  lemma {:induction false} WritingCarries(s: Sys, list: Path, c: Content)
    requires s.pc.Busy? && s.pc.stage in {Writing, Logging, Hashing} && Shape(s)
    requires Watched(list) && KindOf(list).Conflist? && Carries(s, list, c)
    ensures Carries(MicroStep(s), list, c)
  {
    MicroOrigin(s);
    MicroFiles(s);
    if MicroStep(s).pc.Busy? {
      MicroPlan(s);
    }
    ConfOfFacts(list);
    TempUnwatched(s.pc.plan.dst);
    CarriesFrame(s, MicroStep(s), list, c);
  }

  /** A state in which a rewrite of `s` has just been put in place. */
  ghost predicate PutInPlace(s: Sys, s': Sys, temp: Path, plan: Plan) {
    && plan.src in s.disk.files && plan.src in s.origin && !Watched(temp)
    && s'.disk.files == (s.disk.files - {temp})[plan.dst := plan.merged]
    && s'.origin == s.origin[plan.dst := s.origin[plan.src]]
    && (s'.pc.Busy? ==> s'.pc.plan == plan)
  }

  lemma {:induction false} PutInPlaceCarries(s: Sys, s': Sys, temp: Path, plan: Plan, list: Path, c: Content)
    requires PutInPlace(s, s', temp, plan) && Watched(plan.src) && plan.dst == Destination(plan.src)
    requires Watched(list) && KindOf(list).Conflist? && Carries(s, list, c)
    ensures Carries(s', list, c)
  {
    ConfOfFacts(list);
    PathFacts(plan.src);
    assert SameFile(s, s', ConfOf(list));
    if plan.dst != list { CarriesFrame(s, s', list, c); }
  }

  lemma {:induction false} RenamedInPlace(s: Sys)
    requires s.pc.Busy? && s.pc.stage == Renaming && Shape(s) && s.pc.plan.src in s.origin
    ensures MicroStep(s).pc.Busy? ==> PutInPlace(s, MicroStep(s), Temp(s.pc.plan.dst), s.pc.plan)
    ensures !MicroStep(s).pc.Busy? ==> MicroStep(s) == Fail(s)
  {
    TempUnwatched(s.pc.plan.dst);
  }

  lemma {:induction false} RenamingCarries(s: Sys, list: Path, c: Content)
    requires s.pc.Busy? && s.pc.stage == Renaming && Shape(s) && s.pc.plan.src in s.origin
    requires Watched(list) && KindOf(list).Conflist? && Carries(s, list, c)
    ensures Carries(MicroStep(s), list, c)
  {
    RenamedInPlace(s);
    if MicroStep(s).pc.Busy? {
      PutInPlaceCarries(s, MicroStep(s), Temp(s.pc.plan.dst), s.pc.plan, list, c);
    } else {
      CarriesFrame(s, Fail(s), list, c);
    }
  }

  lemma {:induction false} RemovingCarries(s: Sys, list: Path, c: Content)
    requires s.pc.Busy? && s.pc.stage == Removing && Shape(s)
    requires Watched(list) && KindOf(list).Conflist? && Carries(s, list, c)
    ensures Carries(MicroStep(s), list, c)
  {
    var s', src := MicroStep(s), s.pc.plan.src;
    MicroOrigin(s);
    MicroFiles(s);
    ConfOfFacts(list);
    PathFacts(src);
    assert src != list;
    if src != ConfOf(list) || s'.disk.files == s.disk.files { CarriesFrame(s, s', list, c); }
  }

  lemma {:induction false} K8sCarries(cfg: Config, s: Sys, list: Path, c: Content)
    requires !Watched(cfg.kubeconfig) && s.pc.Idle?
    requires Watched(list) && KindOf(list).Conflist? && Carries(s, list, c)
    ensures Carries(ReconfigureK8s(cfg, s), list, c)
  {
    K8sKeeps(cfg, s);
    ConfOfFacts(list);
    CarriesFrame(s, ReconfigureK8s(cfg, s), list, c);
  }

  lemma {:induction false} BeginCarries(cfg: Config, s: Sys, name: Path, list: Path, c: Content)
    requires s.pc.Idle? && KindOf(list).Conflist? && Carries(s, list, c)
    ensures Carries(BeginReconfigure(cfg, s, name), list, c)
  {}

  lemma {:induction false} DispatchCarries(cfg: Config, linkerd: Json, s: Sys, list: Path, c: Content)
    requires ConfigOk(cfg, linkerd) && s.pc.Idle? && s.disk.events != []
    requires Watched(list) && KindOf(list).Conflist? && Carries(s, list, c)
    ensures Carries(DispatchNext(cfg, s), list, c)
  {
    var e := s.disk.events[0];
    CarriesFrame(s, Popped(s), list, c);
    if Applies(e) && e.path.dir.ConfigDir? && IsCniFile(e.path) {
      BeginCarries(cfg, Popped(s), e.path, list, c);
    } else if Applies(e) && e.path.dir.TokenDir? && HasSuffix(e.path.base, "..data") {
      K8sCarries(cfg, Popped(s), list, c);
    }
  }

  lemma {:induction false} BootCarries(cfg: Config, linkerd: Json, s: Sys, entries: seq<Path>, list: Path, c: Content)
    requires ConfigOk(cfg, linkerd) && Watched(list) && KindOf(list).Conflist? && Carries(s, list, c)
    ensures Carries(Started(cfg, s, entries), list, c)
  {
    ConfOfFacts(list);
    BinariesInstalled(s.disk.files, cfg.binaries, list);
    BinariesInstalled(s.disk.files, cfg.binaries, ConfOf(list));
    CarriesFrame(s, Started(cfg, s, entries), list, c);
  }

  /** An external writer touches the file or the other one of its pair. */
  predicate TouchesPair(step: Step, p: Path) {
    (step.ExternalWrite? || step.ExternalDelete?) && Destination(step.path) == Destination(p)
  }

  /** A version once carried stays carried, whatever step is taken, until an external writer touches
      the pair. */
  lemma {:induction false} StepCarries(cfg: Config, linkerd: Json, s: Sys, step: Step, list: Path, c: Content)
    requires ConfigOk(cfg, linkerd) && Enabled(cfg, s, step) && Inv(linkerd, s)
    requires Watched(list) && KindOf(list).Conflist? && Carries(s, list, c)
    requires !TouchesPair(step, list)
    ensures Carries(Apply(cfg, s, step), list, c)
  {
    ConfOfFacts(list);
    PathFacts(list);
    match step {
      case Dispatch => DispatchCarries(cfg, linkerd, s, list, c);
      case Micro =>
        if s.pc.stage == Renaming {
          RenamingCarries(s, list, c);
        } else if s.pc.stage == Removing {
          RemovingCarries(s, list, c);
        } else {
          WritingCarries(s, list, c);
        }
      case Boot(entries) => BootCarries(cfg, linkerd, s, entries, list, c);
      case _ => CarriesFrame(s, Apply(cfg, s, step), list, c);
    }
  }

  ghost predicate LeftAlone(steps: seq<Step>, i: nat, k: nat, p: Path)
    requires k <= |steps|
  {
    forall j :: i <= j < k ==> !TouchesPair(steps[j], p)
  }

  lemma {:induction false} RunCarries(
    cfg: Config, linkerd: Json, states: seq<Sys>, steps: seq<Step>, i: nat, k: nat, list: Path, c: Content)
    requires ConfigOk(cfg, linkerd) && IsRun(cfg, states, steps) && i <= k < |states|
    requires Watched(list) && KindOf(list).Conflist? && Carries(states[i], list, c) && LeftAlone(steps, i, k, list)
    ensures Carries(states[k], list, c)
  {
    if i < k {
      RunCarries(cfg, linkerd, states, steps, i, k - 1, list, c);
      RunInv(cfg, linkerd, states, steps, k - 1);
      assert StepsAt(cfg, states, steps, k - 1);
      StepCarries(cfg, linkerd, states[k - 1], steps[k - 1], list, c);
    }
  }

  /** What a pair carries is what its `.conflist` settles from. */
  lemma {:induction false} CarriedSettles(
    cfg: Config, linkerd: Json, states: seq<Sys>, steps: seq<Step>, k: nat, list: Path, c: Content)
    requires ConfigOk(cfg, linkerd) && IsRun(cfg, states, steps) && k < |states| && Quiescent(states[k])
    requires Watched(list) && KindOf(list).Conflist? && Carries(states[k], list, c)
    ensures list in states[k].disk.files && ConfOf(list) !in states[k].disk.files
    ensures SettledContent(states[k].disk.files[list], linkerd, c)
  {
    ConfOfFacts(list);
    if ConfOf(list) in states[k].disk.files {
      QuiescentIsSettled(cfg, linkerd, states, steps, k, ConfOf(list));
    }
    QuiescentIsSettled(cfg, linkerd, states, steps, k, list);
  }

  // ---- A `.conf` is as its writer left it ------------------------------------------------

  ghost predicate AsWritten(s: Sys, conf: Path) {
    conf in s.disk.files ==> conf in s.origin && s.disk.files[conf] == s.origin[conf]
  }

  /** The step leaves the file alone, or removes it, and does not change what it stems from. */
  ghost predicate LeavesFile(s: Sys, s': Sys, p: Path) {
    && (p in s'.disk.files ==> p in s.disk.files && s'.disk.files[p] == s.disk.files[p])
    && (p in s.origin ==> p in s'.origin && s'.origin[p] == s.origin[p])
  }

  lemma {:induction false} MicroLeavesConf(s: Sys, conf: Path)
    requires s.pc.Busy? && Shape(s) && s.pc.plan.src in s.origin && Watched(conf) && KindOf(conf).Conf?
    ensures LeavesFile(s, MicroStep(s), conf)
  {
    PathFacts(s.pc.plan.src);
    TempUnwatched(s.pc.plan.dst);
    if s.pc.stage == Renaming {
      RenamedInPlace(s);
    } else {
      MicroOrigin(s);
      MicroFiles(s);
    }
  }

  lemma {:induction false} DispatchLeavesConf(cfg: Config, linkerd: Json, s: Sys, conf: Path)
    requires ConfigOk(cfg, linkerd) && s.pc.Idle? && s.disk.events != [] && Watched(conf)
    ensures LeavesFile(s, DispatchNext(cfg, s), conf)
  {
    var e := s.disk.events[0];
    if Applies(e) && e.path.dir.ConfigDir? && IsCniFile(e.path) {
      BeginOutcome(cfg, Popped(s), e.path);
    } else if Applies(e) && e.path.dir.TokenDir? && HasSuffix(e.path.base, "..data") {
      K8sKeeps(cfg, Popped(s));
    }
  }

  lemma {:induction false} StepLeavesConf(cfg: Config, linkerd: Json, s: Sys, step: Step, conf: Path)
    requires ConfigOk(cfg, linkerd) && Enabled(cfg, s, step) && Inv(linkerd, s)
    requires Watched(conf) && KindOf(conf).Conf? && AsWritten(s, conf)
    ensures AsWritten(Apply(cfg, s, step), conf)
  {
    match step {
      case Dispatch => DispatchLeavesConf(cfg, linkerd, s, conf);
      case Micro => MicroLeavesConf(s, conf);
      case Boot(_) => BinariesInstalled(s.disk.files, cfg.binaries, conf);
      case _ =>
    }
  }

  /** No step of the process rewrites a `.conf`: it is read as its last external writer left it. */
  lemma {:induction false} ConfIsAsWritten(
    cfg: Config, linkerd: Json, states: seq<Sys>, steps: seq<Step>, k: nat, conf: Path)
    requires ConfigOk(cfg, linkerd) && IsRun(cfg, states, steps) && k < |states|
    requires Watched(conf) && KindOf(conf).Conf?
    ensures AsWritten(states[k], conf)
  {
    if k > 0 {
      ConfIsAsWritten(cfg, linkerd, states, steps, k - 1, conf);
      RunInv(cfg, linkerd, states, steps, k - 1);
      assert StepsAt(cfg, states, steps, k - 1);
      StepLeavesConf(cfg, linkerd, states[k - 1], steps[k - 1], conf);
    }
  }

  // ---- Which version survives ------------------------------------------------------------

  /** A `.conf` of its name is waiting to be rewritten when the `.conflist` is written. */
  predicate ConfWaits(s: Sys, p: Path) {
    KindOf(p).Conflist? && ConfOf(p) in s.disk.files
  }

  /** The version that survives a write of `c`: that of a waiting `.conf`, else `c`. */
  function Survivor(s: Sys, p: Path, c: Content): Content {
    if ConfWaits(s, p) then s.disk.files[ConfOf(p)] else c
  }

  /** The last external version wins: after an external writer writes a configuration and leaves the
      pair alone, then at any later quiescence, whatever handlers, crashes and restarts came between,
      the `.conflist` of that name is there, ends in the linkerd plugin, and otherwise is what was
      written, as a list; unless it was a `.conflist` while a `.conf` waited, whose version it is
      then. */
  lemma {:induction false} LastExternalVersionWins(
    cfg: Config, linkerd: Json, states: seq<Sys>, steps: seq<Step>, i: nat, k: nat, p: Path, c: Content)
    requires ConfigOk(cfg, linkerd) && IsRun(cfg, states, steps) && i < k < |states| && Quiescent(states[k])
    requires steps[i] == ExternalWrite(p, c) && Watched(p) && LeftAlone(steps, i + 1, k, p)
    ensures Destination(p) in states[k].disk.files && Watched(Destination(p))
    ensures SettledContent(states[k].disk.files[Destination(p)], linkerd, Survivor(states[i], p, c))
  {
    WriteAtCarries(cfg, linkerd, states, steps, i, p, c);
    AloneCarries(cfg, linkerd, states, steps, i + 1, k, p, Survivor(states[i], p, c));
  }

  lemma {:induction false} WriteAtCarries(
    cfg: Config, linkerd: Json, states: seq<Sys>, steps: seq<Step>, i: nat, p: Path, c: Content)
    requires ConfigOk(cfg, linkerd) && IsRun(cfg, states, steps) && i < |steps|
    requires steps[i] == ExternalWrite(p, c) && Watched(p)
    ensures KindOf(Destination(p)).Conflist? && Watched(Destination(p))
    ensures Carries(states[i + 1], Destination(p), Survivor(states[i], p, c))
  {
    PathFacts(p);
    assert StepsAt(cfg, states, steps, i);
    if ConfWaits(states[i], p) {
      ConfOfFacts(p);
      ConfIsAsWritten(cfg, linkerd, states, steps, i, ConfOf(p));
    }
    WriteCarries(cfg, states[i], p, c);
  }

  lemma {:induction false} AloneCarries(
    cfg: Config, linkerd: Json, states: seq<Sys>, steps: seq<Step>, i: nat, k: nat, p: Path, c: Content)
    requires ConfigOk(cfg, linkerd) && IsRun(cfg, states, steps) && i <= k < |states| && Quiescent(states[k])
    requires KindOf(Destination(p)).Conflist? && Watched(Destination(p)) && LeftAlone(steps, i, k, p)
    requires Carries(states[i], Destination(p), c)
    ensures Destination(p) in states[k].disk.files
    ensures SettledContent(states[k].disk.files[Destination(p)], linkerd, c)
  {
    PathFacts(Destination(p));
    RunCarries(cfg, linkerd, states, steps, i, k, Destination(p), c);
    CarriedSettles(cfg, linkerd, states, steps, k, Destination(p), c);
  }

  lemma {:induction false} WriteCarries(cfg: Config, s: Sys, p: Path, c: Content)
    requires !s.pc.Busy? && Watched(p) && KindOf(Destination(p)).Conflist?
    requires ConfWaits(s, p) ==> AsWritten(s, ConfOf(p))
    ensures Carries(Apply(cfg, s, ExternalWrite(p, c)), Destination(p), Survivor(s, p, c))
  {
    PathFacts(p);
    ConfOfFacts(Destination(p));
  }

  /** The same for a version that was there before the process first started. */
  lemma {:induction false} FirstVersionWins(
    cfg: Config, linkerd: Json, states: seq<Sys>, steps: seq<Step>, k: nat, p: Path)
    requires ConfigOk(cfg, linkerd) && IsRun(cfg, states, steps) && k < |states| && Quiescent(states[k])
    requires p in states[0].disk.files && Watched(p) && LeftAlone(steps, 0, k, p)
    ensures Destination(p) in states[k].disk.files && Watched(Destination(p))
    ensures SettledContent(states[k].disk.files[Destination(p)], linkerd,
                           Survivor(states[0], p, states[0].disk.files[p]))
  {
    PathFacts(p);
    ConfOfFacts(Destination(p));
    AloneCarries(cfg, linkerd, states, steps, 0, k, p, Survivor(states[0], p, states[0].disk.files[p]));
  }

  /** Two versions that differ in nothing but linkerd entries. */
  ghost predicate SameButLinkerd(a: Content, b: Content) {
    && UnmarshalMap(a).Ok? && UnmarshalMap(b).Ok?
    && var x, y := AsList(UnmarshalMap(a).value), AsList(UnmarshalMap(b).value);
       && PluginsOf(x).Some? && PluginsOf(y).Some?
       && Others(PluginsOf(x).value) == Others(PluginsOf(y).value)
       && Fields(x) - {KEY_PLUGINS} == Fields(y) - {KEY_PLUGINS}
  }

  lemma {:induction false} SettledFromBoth(x: Content, linkerd: Json, a: Content, b: Content)
    requires SettledContent(x, linkerd, a)
    ensures SettledContent(x, linkerd, b) <==> SameButLinkerd(a, b)
  {}

  /** Exactly when a write survives to a later quiescence: if and only if no `.conf` of its name was
      waiting, or the waiting one said the same. */
  lemma {:induction false} WriteSurvivesExactly(
    cfg: Config, linkerd: Json, states: seq<Sys>, steps: seq<Step>, i: nat, k: nat, p: Path, c: Content)
    requires ConfigOk(cfg, linkerd) && IsRun(cfg, states, steps) && i < k < |states| && Quiescent(states[k])
    requires steps[i] == ExternalWrite(p, c) && Watched(p) && LeftAlone(steps, i + 1, k, p)
    ensures Destination(p) in states[k].disk.files
    ensures SettledContent(states[k].disk.files[Destination(p)], linkerd, c) <==>
            !ConfWaits(states[i], p) || SameButLinkerd(states[i].disk.files[ConfOf(p)], c)
  {
    LastExternalVersionWins(cfg, linkerd, states, steps, i, k, p, c);
    SettledFromBoth(states[k].disk.files[Destination(p)], linkerd, Survivor(states[i], p, c), c);
  }

  // ---- Deletions -------------------------------------------------------------------------

  /** Neither file of the pair is there, and no rewrite is about to put it there. */
  ghost predicate Gone(s: Sys, list: Path)
    requires KindOf(list).Conflist?
  {
    && list !in s.disk.files && ConfOf(list) !in s.disk.files
    && (s.pc.Busy? ==> s.pc.plan.dst != list)
  }

  /** The step puts no content at the path. */
  ghost predicate PutsNothing(s: Sys, s': Sys, p: Path) {
    p in s'.disk.files ==> p in s.disk.files
  }

  lemma {:induction false} GoneFrame(s: Sys, s': Sys, list: Path)
    requires KindOf(list).Conflist? && Gone(s, list)
    requires PutsNothing(s, s', list) && PutsNothing(s, s', ConfOf(list))
    requires s'.pc.Busy? ==> s'.pc.plan.dst != list
    ensures Gone(s', list)
  {}

  lemma {:induction false} MicroStaysGone(s: Sys, list: Path)
    requires s.pc.Busy? && Shape(s) && Watched(list) && KindOf(list).Conflist? && Gone(s, list)
    ensures Gone(MicroStep(s), list)
  {
    MicroFiles(s);
    ConfOfFacts(list);
    PathFacts(s.pc.plan.src);
    TempUnwatched(s.pc.plan.dst);
    if MicroStep(s).pc.Busy? { MicroPlan(s); }
    GoneFrame(s, MicroStep(s), list);
  }

  lemma {:induction false} BeginStaysGone(cfg: Config, s: Sys, name: Path, list: Path)
    requires s.pc.Idle? && KindOf(list).Conflist? && Gone(s, list) && Watched(name)
    ensures Gone(BeginReconfigure(cfg, s, name), list)
  {
    BeginOutcome(cfg, s, name);
    PathFacts(name);
  }

  lemma {:induction false} DispatchStaysGone(cfg: Config, linkerd: Json, s: Sys, list: Path)
    requires ConfigOk(cfg, linkerd) && s.pc.Idle? && s.disk.events != []
    requires Watched(list) && KindOf(list).Conflist? && Gone(s, list)
    ensures Gone(DispatchNext(cfg, s), list)
  {
    var e := s.disk.events[0];
    PathFacts(e.path);
    ConfOfFacts(list);
    if Applies(e) && e.path.dir.ConfigDir? && IsCniFile(e.path) {
      BeginStaysGone(cfg, Popped(s), e.path, list);
    } else if Applies(e) && e.path.dir.TokenDir? && HasSuffix(e.path.base, "..data") {
      K8sKeeps(cfg, Popped(s));
      GoneFrame(Popped(s), ReconfigureK8s(cfg, Popped(s)), list);
    }
  }

  /** A pair that is gone stays gone, whatever step is taken, until an external writer touches it. */
  lemma {:induction false} StepStaysGone(cfg: Config, linkerd: Json, s: Sys, step: Step, list: Path)
    requires ConfigOk(cfg, linkerd) && Enabled(cfg, s, step) && Shape(s)
    requires Watched(list) && KindOf(list).Conflist? && Gone(s, list) && !TouchesPair(step, list)
    ensures Gone(Apply(cfg, s, step), list)
  {
    ConfOfFacts(list);
    PathFacts(list);
    match step {
      case Dispatch => DispatchStaysGone(cfg, linkerd, s, list);
      case Micro => MicroStaysGone(s, list);
      case Boot(entries) =>
        BinariesInstalled(s.disk.files, cfg.binaries, list);
        BinariesInstalled(s.disk.files, cfg.binaries, ConfOf(list));
        GoneFrame(s, Apply(cfg, s, step), list);
      case _ => GoneFrame(s, Apply(cfg, s, step), list);
    }
  }

  lemma {:induction false} RunStaysGone(
    cfg: Config, linkerd: Json, states: seq<Sys>, steps: seq<Step>, i: nat, k: nat, list: Path)
    requires ConfigOk(cfg, linkerd) && IsRun(cfg, states, steps) && i <= k < |states|
    requires Watched(list) && KindOf(list).Conflist? && Gone(states[i], list) && LeftAlone(steps, i, k, list)
    ensures Gone(states[k], list)
  {
    if i < k {
      RunStaysGone(cfg, linkerd, states, steps, i, k - 1, list);
      RunInv(cfg, linkerd, states, steps, k - 1);
      assert StepsAt(cfg, states, steps, k - 1);
      StepStaysGone(cfg, linkerd, states[k - 1], steps[k - 1], list);
    }
  }

  /** What a deletion leaves of a pair: the version of the `.conf` if there is one, else the one the
      `.conflist` stems from, else nothing. */
  ghost function Remainder(s: Sys, list: Path): Option<Content>
    requires KindOf(list).Conflist?
  {
    if ConfOf(list) in s.disk.files then Some(s.disk.files[ConfOf(list)])
    else if list in s.disk.files && list in s.origin then Some(s.origin[list])
    else None
  }

  lemma {:induction false} RemainderCarried(
    cfg: Config, linkerd: Json, states: seq<Sys>, steps: seq<Step>, i: nat, list: Path)
    requires ConfigOk(cfg, linkerd) && IsRun(cfg, states, steps) && i < |states| && !states[i].pc.Busy?
    requires Watched(list) && KindOf(list).Conflist?
    ensures match Remainder(states[i], list)
            case Some(version) => Carries(states[i], list, version)
            case None => Gone(states[i], list)
  {
    RunInv(cfg, linkerd, states, steps, i);
    ConfOfFacts(list);
    if ConfOf(list) in states[i].disk.files {
      ConfIsAsWritten(cfg, linkerd, states, steps, i, ConfOf(list));
    }
  }

  /** The last deletion wins: after an external writer deletes a file of a pair and leaves the pair
      alone, then at any later quiescence, whatever handlers, crashes and restarts came between, the
      `.conflist` is there exactly when the deletion left a file of the pair, and is what was left with
      linkerd last. */
  lemma {:induction false} LastDeletionWins(
    cfg: Config, linkerd: Json, states: seq<Sys>, steps: seq<Step>, i: nat, k: nat, p: Path)
    requires ConfigOk(cfg, linkerd) && IsRun(cfg, states, steps) && i < k < |states| && Quiescent(states[k])
    requires steps[i] == ExternalDelete(p) && Watched(p) && LeftAlone(steps, i + 1, k, p)
    ensures KindOf(Destination(p)).Conflist?
    ensures match Remainder(states[i + 1], Destination(p))
            case Some(version) =>
              && Destination(p) in states[k].disk.files
              && SettledContent(states[k].disk.files[Destination(p)], linkerd, version)
            case None => Destination(p) !in states[k].disk.files && ConfOf(Destination(p)) !in states[k].disk.files
  {
    var list := Destination(p);
    PathFacts(p);
    PathFacts(list);
    assert StepsAt(cfg, states, steps, i);
    RemainderCarried(cfg, linkerd, states, steps, i + 1, list);
    match Remainder(states[i + 1], list) {
      case Some(version) => AloneCarries(cfg, linkerd, states, steps, i + 1, k, p, version);
      case None => RunStaysGone(cfg, linkerd, states, steps, i + 1, k, list);
    }
  }
}

/** What starting the installer puts in place is there, and stays there: the binaries and the
    kubeconfig (internal/cni/run.go, internal/cni/install.go). */
module CniStartup {
  import opened Text
  import opened CniConfig
  import opened CniPaths
  import opened CniInvariant
  import opened CniMachine
  import opened CniRemoval

  ghost predicate Holds(s: Sys, p: Path, c: Content) {
    p in s.disk.files && s.disk.files[p] == c
  }

  /** An external writer writes or deletes the file. */
  predicate Touches(step: Step, p: Path) {
    (step.ExternalWrite? || step.ExternalDelete?) && step.path == p
  }

  ghost predicate Untouched(steps: seq<Step>, i: nat, k: nat, p: Path)
    requires k <= |steps|
  {
    forall j :: i <= j < k ==> !Touches(steps[j], p)
  }

  // ---- Steps that leave a file alone -----------------------------------------------------

  /** What an operation that concerns other paths leaves. */
  ghost predicate Leaves(d: Disk, d': Option<Disk>, p: Path) {
    d'.Some? ==> SameAt(d'.value, d, p) && d.events <= d'.value.events
  }

  lemma {:induction false} OperationsLeave(d: Disk, q: Path, to: Path, c: Content, p: Path)
    requires p != q && p != to
    ensures Leaves(d, WriteFile(d, q, c), p) && Leaves(d, RenameFile(d, q, to), p) && Leaves(d, RemoveFile(d, q), p)
  {}

  lemma {:induction false} MicroLeaves(s: Sys, p: Path)
    requires s.pc.Busy? && Shape(s) && !Watched(p) && !Temporary(p)
    ensures SameAt(MicroStep(s).disk, s.disk, p) && s.disk.events <= MicroStep(s).disk.events
    ensures !MicroStep(s).pc.Down? && (s.failed ==> MicroStep(s).failed)
  {
    var plan := s.pc.plan;
    assert p != Temp(plan.dst);
    PathFacts(plan.src);
    OperationsLeave(s.disk, Temp(plan.dst), plan.dst, plan.merged, p);
    OperationsLeave(s.disk, plan.src, plan.dst, plan.merged, p);
  }

  lemma {:induction false} K8sLeaves(cfg: Config, s: Sys, p: Path)
    requires p != cfg.kubeconfig && p != Temp(cfg.kubeconfig)
    ensures SameAt(ReconfigureK8s(cfg, s).disk, s.disk, p)
  {}

  // ---- Binaries --------------------------------------------------------------------------

  /** No binary installed after the `n`-th takes its place. */
  ghost predicate LastAtPath(binaries: seq<(Path, Content)>, n: nat)
    requires n < |binaries|
  {
    forall j :: n < j < |binaries| ==> binaries[n].0 !in {binaries[j].0, Temp(binaries[j].0)}
  }

  lemma {:induction false} BinaryInPlace(files: map<Path, Content>, binaries: seq<(Path, Content)>, n: nat)
    requires n < |binaries| && LastAtPath(binaries, n)
    ensures var installed := InstallBinaries(files, binaries);
            binaries[n].0 in installed && installed[binaries[n].0] == binaries[n].1
  {
    var m := |binaries| - 1;
    if n < m {
      BinaryInPlace(files, binaries[..m], n);
      assert binaries[n].0 !in {binaries[m].0, Temp(binaries[m].0)};
    }
  }

  lemma {:induction false} DispatchLeaves(cfg: Config, s: Sys, p: Path)
    requires s.pc.Idle? && s.disk.events != [] && p != cfg.kubeconfig && p != Temp(cfg.kubeconfig)
    ensures SameAt(DispatchNext(cfg, s).disk, s.disk, p)
  {
    K8sLeaves(cfg, Popped(s), p);
    BeginOutcome(cfg, Popped(s), s.disk.events[0].path);
  }

  lemma {:induction false} MicroLeavesBinaries(s: Sys, p: Path)
    requires s.pc.Busy? && Shape(s) && p.dir.BinDir?
    ensures SameAt(MicroStep(s).disk, s.disk, p)
  {
    var plan := s.pc.plan;
    PathFacts(plan.src);
    OperationsLeave(s.disk, Temp(plan.dst), plan.dst, plan.merged, p);
    OperationsLeave(s.disk, plan.src, plan.dst, plan.merged, p);
  }

  lemma {:induction false} BinaryStays(cfg: Config, linkerd: Json, s: Sys, step: Step, n: nat)
    requires ConfigOk(cfg, linkerd) && Enabled(cfg, s, step) && Shape(s)
    requires n < |cfg.binaries| && LastAtPath(cfg.binaries, n) && !Touches(step, cfg.binaries[n].0)
    requires Holds(s, cfg.binaries[n].0, cfg.binaries[n].1)
    ensures Holds(Apply(cfg, s, step), cfg.binaries[n].0, cfg.binaries[n].1)
  {
    var p := cfg.binaries[n].0;
    assert cfg.binaries[n] in cfg.binaries;
    match step {
      case Dispatch => DispatchLeaves(cfg, s, p);
      case Micro => MicroLeavesBinaries(s, p);
      case Boot(_) => BinaryInPlace(s.disk.files, cfg.binaries, n);
      case _ =>
    }
  }

  /** From its start on, each binary is in place with its own content, through every later step, crashes and
      restarts included, until an external writer touches it. */
  lemma {:induction false} BinariesStay(
    cfg: Config, linkerd: Json, states: seq<Sys>, steps: seq<Step>, i: nat, k: nat, n: nat)
    requires ConfigOk(cfg, linkerd) && IsRun(cfg, states, steps) && i < k < |states| && steps[i].Boot?
    requires n < |cfg.binaries| && LastAtPath(cfg.binaries, n)
    requires Untouched(steps, i, k, cfg.binaries[n].0)
    ensures Holds(states[k], cfg.binaries[n].0, cfg.binaries[n].1)
  {
    assert StepsAt(cfg, states, steps, k - 1);
    if i == k - 1 {
      BinaryInPlace(states[i].disk.files, cfg.binaries, n);
    } else {
      BinariesStay(cfg, linkerd, states, steps, i, k - 1, n);
      RunInv(cfg, linkerd, states, steps, k - 1);
      BinaryStays(cfg, linkerd, states[k - 1], steps[k - 1], n);
    }
  }

  // ---- The kubeconfig --------------------------------------------------------------------

  /** While the process is up and has met no error, the kubeconfig is current, or its event waits. */
  ghost predicate KubeconfigCurrent(cfg: Config, s: Sys) {
    !s.pc.Down? && !s.failed ==> Holds(s, cfg.kubeconfig, cfg.kubeText) || Pending(s.disk.events, DATA)
  }

  lemma {:induction false} PendingGrows(cfg: Config, s: Sys, s': Sys)
    requires KubeconfigCurrent(cfg, s) && s.disk.events <= s'.disk.events && SameAt(s'.disk, s.disk, cfg.kubeconfig)
    requires !s.pc.Down? && (s.failed ==> s'.failed)
    ensures KubeconfigCurrent(cfg, s')
  {
    assert s'.disk.events == s.disk.events + s'.disk.events[|s.disk.events|..];
    PendingAfter(s.disk.events, s'.disk.events[|s.disk.events|..], DATA);
  }

  lemma {:induction false} RewrittenKubeconfig(cfg: Config, s: Sys)
    requires cfg.kubeconfig != Temp(cfg.kubeconfig)
    ensures KubeconfigCurrent(cfg, ReconfigureK8s(cfg, s))
  {}

  lemma {:induction false} PoppedKubeconfig(cfg: Config, s: Sys)
    requires s.disk.events != [] && KubeconfigCurrent(cfg, s)
    ensures KubeconfigCurrent(cfg, Popped(s)) || (s.disk.events[0].path == DATA && Applies(s.disk.events[0]))
  {}

  lemma {:induction false} DispatchKubeconfig(cfg: Config, s: Sys)
    requires s.pc.Idle? && s.disk.events != [] && KubeconfigCurrent(cfg, s)
    requires cfg.kubeconfig != Temp(cfg.kubeconfig)
    ensures KubeconfigCurrent(cfg, DispatchNext(cfg, s))
  {
    var e := s.disk.events[0];
    PoppedKubeconfig(cfg, s);
    assert DATA.base[|DATA.base| - |"..data"|..] == "..data";
    if Applies(e) && e.path.dir.TokenDir? && HasSuffix(e.path.base, "..data") {
      RewrittenKubeconfig(cfg, Popped(s));
    } else {
      BeginOutcome(cfg, Popped(s), e.path);
    }
  }

  lemma {:induction false} BootKubeconfig(cfg: Config, s: Sys, entries: seq<Path>)
    ensures KubeconfigCurrent(cfg, Started(cfg, s, entries))
  {
    CreationApplies(DATA);
    assert Started(cfg, s, entries).disk.events[0] == Event(DATA, {Create});
  }

  lemma {:induction false} StepKubeconfig(cfg: Config, linkerd: Json, s: Sys, step: Step)
    requires ConfigOk(cfg, linkerd) && Enabled(cfg, s, step) && Shape(s) && KubeconfigCurrent(cfg, s)
    requires !Temporary(cfg.kubeconfig) && !Touches(step, cfg.kubeconfig)
    ensures KubeconfigCurrent(cfg, Apply(cfg, s, step))
  {
    match step {
      case Dispatch =>
        PathFacts(cfg.kubeconfig);
        DispatchKubeconfig(cfg, s);
      case Micro =>
        MicroLeaves(s, cfg.kubeconfig);
        PendingGrows(cfg, s, MicroStep(s));
      case Boot(entries) => BootKubeconfig(cfg, s, entries);
      case Crash =>
      case _ =>
        if !s.pc.Down? { PendingGrows(cfg, s, Apply(cfg, s, step)); }
    }
  }

  lemma {:induction false} RunKubeconfig(
    cfg: Config, linkerd: Json, states: seq<Sys>, steps: seq<Step>, i: nat, k: nat)
    requires ConfigOk(cfg, linkerd) && IsRun(cfg, states, steps) && i < k < |states| && steps[i].Boot?
    requires !Temporary(cfg.kubeconfig) && Untouched(steps, i, k, cfg.kubeconfig)
    ensures KubeconfigCurrent(cfg, states[k])
  {
    assert StepsAt(cfg, states, steps, k - 1);
    if i == k - 1 {
      BootKubeconfig(cfg, states[i], steps[i].entries);
    } else {
      RunKubeconfig(cfg, linkerd, states, steps, i, k - 1);
      RunInv(cfg, linkerd, states, steps, k - 1);
      StepKubeconfig(cfg, linkerd, states[k - 1], steps[k - 1]);
    }
  }

  /** At any quiescence after a start, the kubeconfig holds the current text, unless an external writer has
      touched it since. */
  lemma {:induction false} KubeconfigAtRest(
    cfg: Config, linkerd: Json, states: seq<Sys>, steps: seq<Step>, i: nat, k: nat)
    requires ConfigOk(cfg, linkerd) && IsRun(cfg, states, steps) && i < k < |states| && steps[i].Boot?
    requires !Temporary(cfg.kubeconfig) && Untouched(steps, i, k, cfg.kubeconfig) && Quiescent(states[k])
    ensures Holds(states[k], cfg.kubeconfig, cfg.kubeText)
  {
    RunKubeconfig(cfg, linkerd, states, steps, i, k);
  }
}

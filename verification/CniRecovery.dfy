/** Crash recovery of the installer: whatever steps of reconfigureCNI a crash cuts short, a restart
    converges to the configurations of an uninterrupted run (internal/cni/conf.go, run.go). */
module CniRecovery {
  import opened Text
  import opened CniConfig
  import opened CniPaths
  import opened CniInvariant
  import opened CniMachine
  import opened CniTermination

  // ---- Sound configurations --------------------------------------------------------------

  /** A configuration that decodes to plugins that are all objects, at most one of them linkerd,
      and is not itself the linkerd plugin. */
  predicate SoundContent(c: Content) {
    UnmarshalMap(c).Ok? && Sound(UnmarshalMap(c).value)
  }

  predicate AllSound(files: map<Path, Content>) {
    forall p <- files.Keys :: Watched(p) ==> SoundContent(files[p])
  }

  /** What the rewrite of a configuration puts in its place. */
  function Merge(c: Content, linkerd: Json): Content {
    match UnmarshalMap(c)
    case Err(_) => c
    case Ok(doc) =>
      match InjectDoc(doc, linkerd)
      case Err(_) => c
      case Ok(result) => Printed(result)
  }

  /** On sound configurations the rewrite succeeds, stays sound and is idempotent. */
  lemma {:induction false} MergeSound(c: Content, configuration: Content, linkerd: Json)
    requires SoundContent(c) && IsLinkerd(linkerd) && UnmarshalMap(configuration) == Ok(linkerd)
    ensures InjectContent(c, configuration) == Ok(Merge(c, linkerd))
    ensures SoundContent(Merge(c, linkerd)) && Merge(Merge(c, linkerd), linkerd) == Merge(c, linkerd)
  {
    InjectSound(UnmarshalMap(c).value, linkerd);
    assert UnmarshalMap(Merge(c, linkerd)) == Ok(InjectDoc(UnmarshalMap(c).value, linkerd).value);
  }

  // ---- What the files are worth ----------------------------------------------------------

  /** The content a `.conflist` will come to have: that of its `.conf` merged if there is one, else
      its own merged. */
  function Worth(files: map<Path, Content>, linkerd: Json, q: Path): Option<Content>
    requires KindOf(q).Conflist?
  {
    if ConfOf(q) in files then Some(Merge(files[ConfOf(q)], linkerd))
    else if q in files then Some(Merge(files[q], linkerd))
    else None
  }

  ghost predicate SameWorth(files: map<Path, Content>, files': map<Path, Content>, linkerd: Json) {
    forall q: Path :: q.dir.ConfigDir? && KindOf(q).Conflist? ==> Worth(files, linkerd, q) == Worth(files', linkerd, q)
  }

  lemma {:induction false} SameConfigurationsSameWorth(
    files: map<Path, Content>, files': map<Path, Content>, linkerd: Json)
    requires forall p: Path | Watched(p) :: (p in files <==> p in files') && (p in files ==> files'[p] == files[p])
    ensures SameWorth(files, files', linkerd)
    ensures AllSound(files) ==> AllSound(files')
  {
    forall q: Path | q.dir.ConfigDir? && KindOf(q).Conflist?
      ensures Worth(files, linkerd, q) == Worth(files', linkerd, q)
    {
      ConfOfFacts(q);
    }
  }

  /** Steps that no external writer takes. */
  predicate Internal(step: Step) {
    step.Dispatch? || step.Micro? || step.Crash? || step.Boot? || step.Notification? || step.Breakage?
  }

  /** What a plan relies on and keeps. */
  ghost predicate PlanSound(linkerd: Json, files: map<Path, Content>, plan: Plan) {
    && Watched(plan.src) && plan.dst == Destination(plan.src) && plan.src in files
    && SoundContent(plan.merged) && Merge(plan.merged, linkerd) == plan.merged
    && Merge(files[plan.src], linkerd) == plan.merged
  }

  ghost predicate HashesSound(hashes: map<Path, Digest>, linkerd: Json) {
    forall p <- hashes.Keys :: hashes[p].DigestOf? && Merge(hashes[p].content, linkerd) == hashes[p].content
  }

  /** Sound files, sound plans, and digests only of configurations that a rewrite leaves alone. */
  ghost predicate SoundInv(linkerd: Json, s: Sys) {
    && Shape(s) && AllSound(s.disk.files)
    && HashesSound(s.hashes, linkerd)
    && (s.pc.Busy? ==> PlanSound(linkerd, s.disk.files, s.pc.plan))
  }

  /** Putting a configuration's merged content in place of its destination changes no worth. */
  lemma {:induction false} RenameWorth(
    files: map<Path, Content>, temp: Path, src: Path, merged: Content, linkerd: Json)
    requires !Watched(temp) && Watched(src) && src in files
    requires Merge(files[src], linkerd) == merged && Merge(merged, linkerd) == merged && SoundContent(merged)
    ensures SameWorth(files, (files - {temp})[Destination(src) := merged], linkerd)
    ensures AllSound(files) ==> AllSound((files - {temp})[Destination(src) := merged])
  {
    var dst, files' := Destination(src), (files - {temp})[Destination(src) := merged];
    PathFacts(src);
    forall q: Path | q.dir.ConfigDir? && KindOf(q).Conflist?
      ensures Worth(files, linkerd, q) == Worth(files', linkerd, q)
    {
      ConfOfFacts(q);
      UntouchedByRename(files, temp, dst, merged, ConfOf(q));
      if q != dst { UntouchedByRename(files, temp, dst, merged, q); }
    }
  }

  lemma {:induction false} UntouchedByRename(files: map<Path, Content>, temp: Path, dst: Path, merged: Content, q: Path)
    requires q != temp && q != dst
    ensures q in files <==> q in (files - {temp})[dst := merged]
    ensures q in files ==> (files - {temp})[dst := merged][q] == files[q]
  {}

  /** Removing a `.conf` whose merged content is in place changes no worth. */
  lemma {:induction false} RemoveWorth(files: map<Path, Content>, src: Path, merged: Content, linkerd: Json)
    requires Watched(src) && src in files && Destination(src) != src
    requires Destination(src) in files && files[Destination(src)] == merged
    requires Merge(files[src], linkerd) == merged && Merge(merged, linkerd) == merged
    ensures SameWorth(files, files - {src}, linkerd)
    ensures AllSound(files) ==> AllSound(files - {src})
  {
    PathFacts(src);
    forall q: Path | q.dir.ConfigDir? && KindOf(q).Conflist?
      ensures Worth(files, linkerd, q) == Worth(files - {src}, linkerd, q)
    {
      ConfOfFacts(q);
    }
  }

  lemma {:induction false} FollowingWorth(
    linkerd: Json, files: map<Path, Content>, files': map<Path, Content>, stage: Stage, plan: Plan)
    requires PlanSound(linkerd, files, plan) && FilesFollow(files, files', stage, plan)
    requires stage == Removing ==> plan.src != plan.dst && plan.dst in files && files[plan.dst] == plan.merged
    ensures SameWorth(files, files', linkerd)
    ensures AllSound(files) ==> AllSound(files')
  {
    TempUnwatched(plan.dst);
    if files' == (files - {Temp(plan.dst)})[plan.dst := plan.merged] {
      RenameWorth(files, Temp(plan.dst), plan.src, plan.merged, linkerd);
    } else if stage == Removing && files' == files - {plan.src} {
      RemoveWorth(files, plan.src, plan.merged, linkerd);
    } else {
      SameConfigurationsSameWorth(files, files', linkerd);
    }
  }

  lemma {:induction false} FollowingPlan(
    linkerd: Json, files: map<Path, Content>, files': map<Path, Content>, stage: Stage, plan: Plan)
    requires PlanSound(linkerd, files, plan) && FilesFollow(files, files', stage, plan) && stage != Removing
    ensures PlanSound(linkerd, files', plan)
  {}

  lemma {:induction false} HashesKept(s: Sys)
    requires s.pc.Busy? && s.pc.stage != Hashing
    ensures MicroStep(s).hashes == s.hashes
  {}

  lemma {:induction false} RecordedSound(hashes: map<Path, Digest>, p: Path, c: Content, linkerd: Json)
    requires HashesSound(hashes, linkerd) && Merge(c, linkerd) == c
    ensures HashesSound(hashes[p := DigestOf(c)], linkerd)
  {}

  lemma {:induction false} MicroHashesSound(linkerd: Json, s: Sys)
    requires s.pc.Busy? && SoundInv(linkerd, s)
    ensures HashesSound(MicroStep(s).hashes, linkerd)
  {
    if s.pc.stage == Hashing {
      RecordedSound(s.hashes, s.pc.plan.dst, s.pc.plan.merged, linkerd);
    } else {
      HashesKept(s);
    }
  }

  lemma {:induction false} MicroPreservesWorth(linkerd: Json, s: Sys)
    requires s.pc.Busy? && SoundInv(linkerd, s)
    ensures SoundInv(linkerd, MicroStep(s)) && SameWorth(s.disk.files, MicroStep(s).disk.files, linkerd)
  {
    MicroShape(s);
    MicroFiles(s);
    MicroHashesSound(linkerd, s);
    FollowingWorth(linkerd, s.disk.files, MicroStep(s).disk.files, s.pc.stage, s.pc.plan);
    if MicroStep(s).pc.Busy? {
      MicroPlan(s);
      FollowingPlan(linkerd, s.disk.files, MicroStep(s).disk.files, s.pc.stage, s.pc.plan);
    }
  }

  lemma {:induction false} BeginSound(cfg: Config, linkerd: Json, s: Sys, name: Path)
    requires ConfigOk(cfg, linkerd) && Watched(name) && s.pc.Idle? && SoundInv(linkerd, s)
    ensures SoundInv(linkerd, BeginReconfigure(cfg, s, name))
    ensures BeginReconfigure(cfg, s, name).disk == s.disk
    ensures s.disk.broken == {} ==> BeginReconfigure(cfg, s, name).failed == s.failed
  {
    if name in s.disk.files {
      MergeSound(s.disk.files[name], FirstSource(cfg.sources).value, linkerd);
    }
    BeginOutcome(cfg, s, name);
  }

  lemma {:induction false} K8sSound(cfg: Config, linkerd: Json, s: Sys)
    requires ConfigOk(cfg, linkerd) && s.pc.Idle? && SoundInv(linkerd, s)
    ensures SoundInv(linkerd, ReconfigureK8s(cfg, s))
    ensures SameWorth(s.disk.files, ReconfigureK8s(cfg, s).disk.files, linkerd)
    ensures ReconfigureK8s(cfg, s).disk.broken == s.disk.broken
    ensures s.disk.broken == {} ==> ReconfigureK8s(cfg, s).failed == s.failed
  {
    K8sKeeps(cfg, s);
    SameConfigurationsSameWorth(s.disk.files, ReconfigureK8s(cfg, s).disk.files, linkerd);
  }

  lemma {:induction false} DispatchPreservesWorth(cfg: Config, linkerd: Json, s: Sys)
    requires ConfigOk(cfg, linkerd) && s.pc.Idle? && s.disk.events != [] && SoundInv(linkerd, s)
    ensures var s' := DispatchNext(cfg, s);
            && SoundInv(linkerd, s') && SameWorth(s.disk.files, s'.disk.files, linkerd)
            && s'.disk.broken == s.disk.broken && (s.disk.broken == {} ==> s'.failed == s.failed)
  {
    var e, s1 := s.disk.events[0], Popped(s);
    PathFacts(e.path);
    if Applies(e) && e.path.dir.ConfigDir? && IsCniFile(e.path) {
      BeginSound(cfg, linkerd, s1, e.path);
    } else if Applies(e) && e.path.dir.TokenDir? && HasSuffix(e.path.base, "..data") {
      K8sSound(cfg, linkerd, s1);
    }
  }

  lemma {:induction false} BootPreservesWorth(cfg: Config, linkerd: Json, s: Sys, entries: seq<Path>)
    requires ConfigOk(cfg, linkerd) && s.pc.Down? && SoundInv(linkerd, s)
    ensures SoundInv(linkerd, Started(cfg, s, entries))
    ensures SameWorth(s.disk.files, Started(cfg, s, entries).disk.files, linkerd)
  {
    var s' := Started(cfg, s, entries);
    forall p: Path | Watched(p)
      ensures (p in s.disk.files <==> p in s'.disk.files) && (p in s.disk.files ==> s'.disk.files[p] == s.disk.files[p])
    {
      BinariesInstalled(s.disk.files, cfg.binaries, p);
    }
    SameConfigurationsSameWorth(s.disk.files, s'.disk.files, linkerd);
  }

  /** No step of the process, its crashes and restarts included, changes what the files are worth. */
  lemma {:induction false} InternalStepPreservesWorth(cfg: Config, linkerd: Json, s: Sys, step: Step)
    requires ConfigOk(cfg, linkerd) && Enabled(cfg, s, step) && Internal(step) && SoundInv(linkerd, s)
    ensures SoundInv(linkerd, Apply(cfg, s, step))
    ensures SameWorth(s.disk.files, Apply(cfg, s, step).disk.files, linkerd)
  {
    match step {
      case Dispatch => DispatchPreservesWorth(cfg, linkerd, s);
      case Micro => MicroPreservesWorth(linkerd, s);
      case Boot(entries) => BootPreservesWorth(cfg, linkerd, s, entries);
      case _ =>
    }
  }

  lemma {:induction false} InternalRunPreservesWorth(
    cfg: Config, linkerd: Json, states: seq<Sys>, steps: seq<Step>, k: nat)
    requires ConfigOk(cfg, linkerd) && IsRun(cfg, states, steps) && k < |states|
    requires (forall step <- steps :: Internal(step)) && AllSound(states[0].disk.files)
    ensures SoundInv(linkerd, states[k]) && SameWorth(states[0].disk.files, states[k].disk.files, linkerd)
  {
    if k > 0 {
      InternalRunPreservesWorth(cfg, linkerd, states, steps, k - 1);
      assert StepsAt(cfg, states, steps, k - 1);
      InternalStepPreservesWorth(cfg, linkerd, states[k - 1], steps[k - 1]);
    }
  }

  /** At every point a crash can hit, each configuration is there as a whole: the file itself, or
      the one it is rewritten to or from, sound and worth the same. */
  lemma {:induction false} WholeConfigurationAtEveryPoint(
    cfg: Config, linkerd: Json, states: seq<Sys>, steps: seq<Step>, k: nat, p: Path) returns (q: Path)
    requires ConfigOk(cfg, linkerd) && IsRun(cfg, states, steps) && k < |states|
    requires (forall step <- steps :: Internal(step)) && AllSound(states[0].disk.files)
    requires Watched(p) && p in states[0].disk.files
    ensures q in states[k].disk.files && Destination(q) == Destination(p) && Watched(q)
    ensures SoundContent(states[k].disk.files[q])
    ensures KindOf(Destination(p)).Conflist?
    ensures Worth(states[0].disk.files, linkerd, Destination(p)) == Some(Merge(states[k].disk.files[q], linkerd))
  {
    InternalRunPreservesWorth(cfg, linkerd, states, steps, k);
    PathFacts(p);
    var dst := Destination(p);
    ConfOfFacts(dst);
    PathFacts(dst);
    assert Worth(states[0].disk.files, linkerd, dst) == Worth(states[k].disk.files, linkerd, dst);
    q := if ConfOf(dst) in states[k].disk.files then ConfOf(dst) else dst;
  }

  // ---- Convergence -----------------------------------------------------------------------

  lemma {:induction false} MicroNeverFails(s: Sys)
    requires s.pc.Busy? && Shape(s) && s.disk.broken == {}
    ensures MicroStep(s).failed == s.failed && MicroStep(s).disk.broken == {}
  {}

  lemma {:induction false} LoopStepSound(cfg: Config, linkerd: Json, s: Sys)
    requires ConfigOk(cfg, linkerd) && (s.pc.Busy? || (s.pc.Idle? && s.disk.events != [])) && s.disk.broken == {}
    requires SoundInv(linkerd, s)
    ensures var s' := LoopStep(cfg, s);
            && SoundInv(linkerd, s') && SameWorth(s.disk.files, s'.disk.files, linkerd)
            && s'.disk.broken == {} && s'.failed == s.failed
  {
    if s.pc.Busy? {
      MicroPreservesWorth(linkerd, s);
      MicroNeverFails(s);
    } else {
      DispatchPreservesWorth(cfg, linkerd, s);
    }
  }

  /** With sound files and no failing operation, draining never fails and keeps the worth. */
  lemma {:induction false} DrainSound(cfg: Config, linkerd: Json, s: Sys)
    requires ConfigOk(cfg, linkerd) && !s.pc.Down? && s.disk.broken == {} && Ready(s)
    requires SoundInv(linkerd, s) && Inv(linkerd, s)
    ensures var r := Drain(cfg, s);
            && SoundInv(linkerd, r) && Inv(linkerd, r) && SameWorth(s.disk.files, r.disk.files, linkerd)
            && r.failed == s.failed
    decreases Measure(s).0, Measure(s).1, Measure(s).2, Measure(s).3, Measure(s).4, Measure(s).5
  {
    if s.pc.Busy? || s.disk.events != [] {
      LoopStepLess(cfg, s);
      LoopStepSound(cfg, linkerd, s);
      StepInv(cfg, linkerd, s, if s.pc.Busy? then Micro else Dispatch);
      DrainSound(cfg, linkerd, LoopStep(cfg, s));
    }
  }

  /** At rest, the configurations are exactly what they were worth. */
  lemma {:induction false} AtRestIsWorth(linkerd: Json, s: Sys, p: Path)
    requires Quiescent(s) && Inv(linkerd, s) && SoundInv(linkerd, s) && Watched(p)
    ensures p in s.disk.files <==> KindOf(p).Conflist? && Worth(s.disk.files, linkerd, p).Some?
    ensures p in s.disk.files ==> Worth(s.disk.files, linkerd, p) == Some(s.disk.files[p])
  {
    forall q <- s.disk.files.Keys | Watched(q)
      ensures KindOf(q).Conflist? && Lookup(s.hashes, q) == DigestOf(s.disk.files[q])
    {
      assert Accounted(s, q);
    }
    if KindOf(p).Conflist? {
      ConfOfFacts(p);
    }
  }

  /** Restarting on the files a state left, with nothing failing, and draining the initial events. */
  ghost function Recovered(cfg: Config, linkerd: Json, s: Sys, entries: seq<Path>): (r: Sys)
    requires ConfigOk(cfg, linkerd) && SoundInv(linkerd, s)
    ensures r.pc.Idle? && r.disk.events == []
  {
    var s1 := Crashed(s.(disk := s.disk.(broken := {})));
    BootReady(cfg, linkerd, s1, entries);
    Drain(cfg, Started(cfg, s1, entries))
  }

  lemma {:induction false} BootReady(cfg: Config, linkerd: Json, s: Sys, entries: seq<Path>)
    requires ConfigOk(cfg, linkerd) && s.pc.Down? && Shape(s)
    ensures Ready(Started(cfg, s, entries))
  {}

  lemma {:induction false} RecoveredIsWorth(cfg: Config, linkerd: Json, s: Sys, entries: seq<Path>, p: Path)
    requires ConfigOk(cfg, linkerd) && SoundInv(linkerd, s) && Inv(linkerd, s) && Watched(p)
    requires forall q <- s.disk.files.Keys :: q.dir.ConfigDir? ==> q in entries
    ensures var r := Recovered(cfg, linkerd, s, entries);
            && Quiescent(r)
            && (p in r.disk.files <==> KindOf(p).Conflist? && Worth(s.disk.files, linkerd, p).Some?)
            && (p in r.disk.files ==> Some(r.disk.files[p]) == Worth(s.disk.files, linkerd, p))
  {
    var s0 := s.(disk := s.disk.(broken := {}));
    var s1 := Crashed(s0);
    BreakInv(cfg, linkerd, s, {});
    CrashInv(linkerd, s0);
    BootInv(cfg, linkerd, s1, entries);
    BootPreservesWorth(cfg, linkerd, s1, entries);
    BootReady(cfg, linkerd, s1, entries);
    DrainSound(cfg, linkerd, Started(cfg, s1, entries));
    AtRestIsWorth(linkerd, Recovered(cfg, linkerd, s, entries), p);
  }

  /** Crash recovery converges: after any run of the process without external writes, cut short at
      any step and any number of times, a restart leaves exactly the configurations that an
      uninterrupted run on the original files leaves. */
  lemma {:induction false} CrashRecoveryConverges(
    cfg: Config, linkerd: Json, states: seq<Sys>, steps: seq<Step>, k: nat,
    entries: seq<Path>, entries0: seq<Path>, p: Path)
    requires ConfigOk(cfg, linkerd) && IsRun(cfg, states, steps) && k < |states| && Watched(p)
    requires (forall step <- steps :: Internal(step)) && AllSound(states[0].disk.files)
    requires forall q <- states[k].disk.files.Keys :: q.dir.ConfigDir? ==> q in entries
    requires forall q <- states[0].disk.files.Keys :: q.dir.ConfigDir? ==> q in entries0
    ensures SoundInv(linkerd, states[k]) && SoundInv(linkerd, states[0])
    ensures var crashed, straight :=
              Recovered(cfg, linkerd, states[k], entries).disk.files,
              Recovered(cfg, linkerd, states[0], entries0).disk.files;
            && (p in crashed <==> p in straight)
            && (p in crashed ==> crashed[p] == straight[p])
  {
    InternalRunPreservesWorth(cfg, linkerd, states, steps, k);
    InternalRunPreservesWorth(cfg, linkerd, states, steps, 0);
    RunInv(cfg, linkerd, states, steps, k);
    RunInv(cfg, linkerd, states, steps, 0);
    RecoveredIsWorth(cfg, linkerd, states[k], entries, p);
    RecoveredIsWorth(cfg, linkerd, states[0], entries0, p);
  }
}

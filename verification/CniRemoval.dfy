/** internal/cni/remove.go: reverting everything the installer logged. */
module CniRemoval {
  import opened Text
  import opened CniConfig
  import opened CniPaths
  import opened CniInvariant
  import opened CniMachine
  import opened CniTermination
  import opened CniProvenance
  import opened CniRecovery

  datatype RevertError =
    | ReadFailed(path: Path)
    | BadConfiguration(path: Path, error: ConfigError)
    | RemoveFailed(path: Path)

  datatype Reverted = Reverted(disk: Disk, error: Option<RevertError>)

  /** cniFile.revert: linkerd is taken out of the configuration; a missing file, and one without
      linkerd, is left alone. */
  function RevertCni(d: Disk, p: Path): Reverted {
    if p !in d.files then Reverted(d, None)
    else if p in d.broken then Reverted(d, Some(ReadFailed(p)))
    else
      match UnmarshalMap(d.files[p])
      case Err(e) => Reverted(d, Some(BadConfiguration(p, e)))
      case Ok(doc) =>
        match RevertDoc(doc)
        case Err(e) => Reverted(d, Some(BadConfiguration(p, e)))
        case Ok(None) => Reverted(d, None)
        case Ok(Some(reverted)) =>
          match WriteFile(d, p, Printed(reverted))
          case None => Reverted(d, Some(ReadFailed(p)))
          case Some(d') => Reverted(d', None)
  }

  /** installedFile.revert and k8sFile.revert: the file is removed if it is there. */
  function RevertByRemoval(d: Disk, p: Path): Reverted {
    if p !in d.files then Reverted(d, None)
    else
      match RemoveFile(d, p)
      case None => Reverted(d, Some(RemoveFailed(p)))
      case Some(d') => Reverted(d', None)
  }

  function Revert(d: Disk, e: Entry): Reverted {
    match e
    case CniFile(p) => RevertCni(d, p)
    case K8sFile(p) => RevertByRemoval(d, p)
    case InstalledFile(p) => RevertByRemoval(d, p)
  }

  function ErrorList(e: Option<RevertError>): seq<RevertError> {
    if e.Some? then [e.value] else []
  }

  /** Remove: every entry in log order, errors collected. */
  function RemoveAll(d: Disk, log: seq<Entry>): (Disk, seq<RevertError>) {
    if log == [] then (d, [])
    else
      var (before, errors) := RemoveAll(d, log[..|log| - 1]);
      var last := Revert(before, log[|log| - 1]);
      (last.disk, errors + ErrorList(last.error))
  }

  // ---- Each entry on its own -------------------------------------------------------------

  ghost predicate SameAt(a: Disk, b: Disk, p: Path) {
    (p in a.files <==> p in b.files) && (p in a.files ==> a.files[p] == b.files[p])
  }

  /** Reverting an entry touches its own file only, and depends on nothing but that file. */
  lemma {:induction false} RevertIsLocal(d: Disk, e: Entry)
    ensures forall p :: p != e.path ==> SameAt(Revert(d, e).disk, d, p)
    ensures Revert(d, e).disk.broken == d.broken
    ensures forall d' :: SameAt(d', d, e.path) && d'.broken == d.broken ==>
              Revert(d', e).error == Revert(d, e).error && SameAt(Revert(d', e).disk, Revert(d, e).disk, e.path)
  {}

  /** The errors the entries give when each is reverted on its own, in log order. */
  function OwnErrors(d: Disk, log: seq<Entry>): seq<RevertError> {
    if log == [] then []
    else OwnErrors(d, log[..|log| - 1]) + ErrorList(Revert(d, log[|log| - 1]).error)
  }

  /** Remove is complete and fair: with distinct names, every entry is reverted exactly as it would
      be alone, whichever others fail, unlogged files are untouched, and the errors are those of
      the failing entries in log order. */
  lemma {:induction false} RemoveIsPointwise(d: Disk, log: seq<Entry>)
    requires Distinct(log)
    ensures RemoveAll(d, log).0.broken == d.broken
    ensures RemoveAll(d, log).1 == OwnErrors(d, log)
    ensures forall e <- log :: SameAt(RemoveAll(d, log).0, Revert(d, e).disk, e.path)
    ensures forall p :: p !in Filenames(log) ==> SameAt(RemoveAll(d, log).0, d, p)
  {
    if log != [] {
      var init, last := log[..|log| - 1], log[|log| - 1];
      assert log == init + [last];
      RemoveIsPointwise(d, init);
      OneMoreRevert(d, RemoveAll(d, init).0, init, last);
    }
  }

  lemma {:induction false} OneMoreRevert(d: Disk, before: Disk, init: seq<Entry>, last: Entry)
    requires Distinct(init + [last]) && before.broken == d.broken
    requires forall e <- init :: SameAt(before, Revert(d, e).disk, e.path)
    requires forall p :: p !in Filenames(init) ==> SameAt(before, d, p)
    ensures var after := Revert(before, last);
            && after.disk.broken == d.broken && after.error == Revert(d, last).error
            && (forall e <- init + [last] :: SameAt(after.disk, Revert(d, e).disk, e.path))
            && (forall p :: p !in Filenames(init + [last]) ==> SameAt(after.disk, d, p))
  {
    var log, after := init + [last], Revert(before, last);
    NewName(init, last);
    assert SameAt(before, d, last.path);
    RevertIsLocal(d, last);
    RevertIsLocal(before, last);
    forall e <- log ensures SameAt(after.disk, Revert(d, e).disk, e.path) {
      if e in init {
        assert e.path in Filenames(init);
        assert SameAt(after.disk, before, e.path);
      }
    }
    forall p | p !in Filenames(log) ensures SameAt(after.disk, d, p) {
      assert SameAt(after.disk, before, p);
    }
  }

  lemma {:induction false} NewName(init: seq<Entry>, last: Entry)
    requires Distinct(init + [last])
    ensures last.path !in Filenames(init)
    ensures Filenames(init + [last]) == Filenames(init) + {last.path}
  {
    var log := init + [last];
    assert log[|init|] == last;
    forall e <- init ensures e.path != last.path {
      var i :| 0 <= i < |init| && init[i] == e;
      assert log[i] == e;
    }
    assert forall e <- init :: e in log;
  }

  /** What reverting a configuration does, in every case: an error changes nothing. */
  lemma {:induction false} RevertOutcomes(d: Disk, p: Path)
    ensures p !in d.files ==> Revert(d, CniFile(p)) == Reverted(d, None)
    ensures p in d.files && p in d.broken ==> Revert(d, CniFile(p)) == Reverted(d, Some(ReadFailed(p)))
    ensures p in d.files && p !in d.broken ==>
              var decoded, r := d.files[p].Decode(), Revert(d, CniFile(p));
              && (!IsMap(decoded) ==> r == Reverted(d, Some(BadConfiguration(p, NotJson))))
              && (decoded == Some(JNull) ==> r == Reverted(d, Some(BadConfiguration(p, NoPlugins))))
              && (IsMap(decoded) && decoded.value.JObject? ==>
                    match RevertDoc(decoded.value)
                    case Err(e) => r == Reverted(d, Some(BadConfiguration(p, e)))
                    case Ok(None) => r == Reverted(d, None)
                    case Ok(Some(doc)) =>
                      && r.error == None && r.disk.broken == d.broken
                      && r.disk.files == d.files[p := Printed(doc)])
  {}

  /** Reverting any other file takes it away, if it is there. */
  lemma {:induction false} RevertTakesAway(d: Disk, p: Path, e: Entry)
    requires e in {K8sFile(p), InstalledFile(p)}
    ensures p !in d.files ==> Revert(d, e) == Reverted(d, None)
    ensures p in d.files && p in d.broken ==> Revert(d, e) == Reverted(d, Some(RemoveFailed(p)))
    ensures p in d.files && p !in d.broken ==>
              Revert(d, e).error == None && Revert(d, e).disk.files == d.files - {p}
  {}

  // ---- Run, then Remove ------------------------------------------------------------------

  /** Steps in which external writers leave sound configurations. */
  predicate SoundStep(step: Step) {
    step.ExternalWrite? && Watched(step.path) ==> SoundContent(step.content)
  }

  lemma {:induction false} ExternalStepSound(cfg: Config, linkerd: Json, s: Sys, step: Step)
    requires Enabled(cfg, s, step) && !Internal(step) && SoundStep(step) && SoundInv(linkerd, s)
    ensures SoundInv(linkerd, Apply(cfg, s, step))
  {}

  lemma {:induction false} RunKeepsSound(cfg: Config, linkerd: Json, states: seq<Sys>, steps: seq<Step>, k: nat)
    requires ConfigOk(cfg, linkerd) && IsRun(cfg, states, steps) && k < |states|
    requires (forall step <- steps :: SoundStep(step)) && AllSound(states[0].disk.files)
    ensures SoundInv(linkerd, states[k])
  {
    if k > 0 {
      RunKeepsSound(cfg, linkerd, states, steps, k - 1);
      assert StepsAt(cfg, states, steps, k - 1);
      if Internal(steps[k - 1]) {
        InternalStepPreservesWorth(cfg, linkerd, states[k - 1], steps[k - 1]);
      } else {
        ExternalStepSound(cfg, linkerd, states[k - 1], steps[k - 1]);
      }
    }
  }

  /** Since it started, the process has logged the binaries, and has logged the kubeconfig, is about
      to, or has met an error. */
  ghost predicate StartLogged(cfg: Config, s: Sys) {
    !s.pc.Down? ==>
      && (forall b <- cfg.binaries :: b.0 in Filenames(s.log))
      && (s.failed || cfg.kubeconfig in Filenames(s.log) || Pending(s.disk.events, DATA))
  }

  /** The kubeconfig's event has been dealt with, or still is in the queue. */
  lemma {:induction false} PoppedStartLogged(cfg: Config, s: Sys)
    requires s.pc.Idle? && s.disk.events != [] && StartLogged(cfg, s)
    ensures var e := s.disk.events[0];
            StartLogged(cfg, Popped(s)) || (e.path == DATA && Applies(e))
  {}

  lemma {:induction false} K8sStartLogged(cfg: Config, s: Sys)
    requires s.pc.Idle? && forall b <- cfg.binaries :: b.0 in Filenames(s.log)
    ensures StartLogged(cfg, ReconfigureK8s(cfg, s))
  {}

  lemma {:induction false} BeginStartLogged(cfg: Config, s: Sys, name: Path)
    requires s.pc.Idle? && StartLogged(cfg, s)
    ensures StartLogged(cfg, BeginReconfigure(cfg, s, name))
  {}

  lemma {:induction false} DispatchStartLogged(cfg: Config, s: Sys)
    requires s.pc.Idle? && s.disk.events != [] && StartLogged(cfg, s)
    ensures StartLogged(cfg, DispatchNext(cfg, s))
  {
    var e := s.disk.events[0];
    PoppedStartLogged(cfg, s);
    assert DATA.base[|DATA.base| - |"..data"|..] == "..data";
    if Applies(e) && e.path.dir.TokenDir? && HasSuffix(e.path.base, "..data") {
      K8sStartLogged(cfg, Popped(s));
    } else if Applies(e) && e.path.dir.ConfigDir? && IsCniFile(e.path) {
      BeginStartLogged(cfg, Popped(s), e.path);
    }
  }

  lemma {:induction false} MicroStartLogged(cfg: Config, s: Sys)
    requires s.pc.Busy? && StartLogged(cfg, s)
    ensures StartLogged(cfg, MicroStep(s))
  {}

  lemma {:induction false} BootStartLogged(cfg: Config, linkerd: Json, s: Sys, entries: seq<Path>)
    requires ConfigOk(cfg, linkerd)
    ensures StartLogged(cfg, Started(cfg, s, entries))
  {
    BinariesLogged(cfg.binaries);
    CreationApplies(DATA);
    assert Started(cfg, s, entries).disk.events[0] == Event(DATA, {Create});
  }

  lemma {:induction false} StepStartLogged(cfg: Config, linkerd: Json, s: Sys, step: Step)
    requires ConfigOk(cfg, linkerd) && Enabled(cfg, s, step) && StartLogged(cfg, s)
    ensures StartLogged(cfg, Apply(cfg, s, step))
  {
    if step.Dispatch? {
      DispatchStartLogged(cfg, s);
    } else if step.Micro? {
      MicroStartLogged(cfg, s);
    } else if step.Boot? {
      BootStartLogged(cfg, linkerd, s, step.entries);
    } else if !step.Crash? && !s.pc.Down? {
      var events := Apply(cfg, s, step).disk.events;
      assert s.disk.events <= events;
      assert events == s.disk.events + events[|s.disk.events|..];
      PendingAfter(s.disk.events, events[|s.disk.events|..], DATA);
    }
  }

  lemma {:induction false} RunStartLogged(cfg: Config, linkerd: Json, states: seq<Sys>, steps: seq<Step>, k: nat)
    requires ConfigOk(cfg, linkerd) && IsRun(cfg, states, steps) && k < |states|
    ensures StartLogged(cfg, states[k])
  {
    if k > 0 {
      RunStartLogged(cfg, linkerd, states, steps, k - 1);
      assert StepsAt(cfg, states, steps, k - 1);
      StepStartLogged(cfg, linkerd, states[k - 1], steps[k - 1]);
    }
  }

  /** The plugins of a settled sound configuration: the other plugins of its origin and one linkerd
      entry, all objects. */
  lemma {:induction false} SoundSettledRevert(c: Content, linkerd: Json, origin: Content)
    requires IsLinkerd(linkerd) && SoundContent(c) && SettledContent(c, linkerd, origin)
    ensures var doc := UnmarshalMap(c).value;
            && RevertDoc(doc).Ok? && RevertDoc(doc).value.Some?
            && WithoutLinkerd(RevertDoc(doc).value.value, UnmarshalMap(origin).value)
  {
    var doc := UnmarshalMap(c).value;
    var plugins := PluginsOf(doc).value;
    CountPositive(plugins, |plugins| - 1);
    RevertSettled(doc, linkerd, UnmarshalMap(origin).value);
  }

  /** `doc` is `origin` as a list, minus linkerd. */
  ghost predicate WithoutLinkerd(doc: Json, origin: Json) {
    && PluginsOf(doc).Some? && PluginsOf(AsList(origin)).Some?
    && PluginsOf(doc).value == Others(PluginsOf(AsList(origin)).value)
    && Fields(doc) - {KEY_PLUGINS} == Fields(AsList(origin)) - {KEY_PLUGINS}
  }

  /** Reverting one settled sound configuration. */
  lemma {:induction false} RevertedConfiguration(d: Disk, p: Path, linkerd: Json, origin: Content)
    requires p in d.files && d.broken == {} && IsLinkerd(linkerd)
    requires SoundContent(d.files[p]) && SettledContent(d.files[p], linkerd, origin)
    ensures var r := Revert(d, CniFile(p));
            && r.error.None? && p in r.disk.files && UnmarshalMap(r.disk.files[p]).Ok?
            && WithoutLinkerd(UnmarshalMap(r.disk.files[p]).value, UnmarshalMap(origin).value)
  {
    SoundSettledRevert(d.files[p], linkerd, origin);
  }

  /** Run, then Remove, undoes itself: from a quiescent state of any run with sound external versions,
      Remove reports no error, deletes the installed binaries and the kubeconfig, and leaves each
      configuration with exactly the plugins of the external version it stems from, minus linkerd,
      and its other keys. Files that were not logged are untouched. */
  lemma {:induction false} RunThenRemove(
    cfg: Config, linkerd: Json, states: seq<Sys>, steps: seq<Step>, k: nat, p: Path)
    requires ConfigOk(cfg, linkerd) && IsRun(cfg, states, steps) && k < |states|
    requires (forall step <- steps :: SoundStep(step)) && AllSound(states[0].disk.files)
    requires Quiescent(states[k]) && states[k].disk.broken == {}
    ensures var s := states[k];
            var (d, errors) := RemoveAll(s.disk, s.log);
            && errors == []
            && (forall b <- cfg.binaries :: b.0 !in d.files) && cfg.kubeconfig !in d.files
            && (Watched(p) && p in s.disk.files ==>
                  && p in d.files && UnmarshalMap(d.files[p]).Ok? && p in s.origin && UnmarshalMap(s.origin[p]).Ok?
                  && WithoutLinkerd(UnmarshalMap(d.files[p]).value, UnmarshalMap(s.origin[p]).value))
            && (p !in Filenames(s.log) ==> SameAt(d, s.disk, p))
  {
    var s := states[k];
    var d := RemoveAll(s.disk, s.log).0;
    RunInv(cfg, linkerd, states, steps, k);
    RunKeepsSound(cfg, linkerd, states, steps, k);
    RunStartLogged(cfg, linkerd, states, steps, k);
    RemoveIsPointwise(s.disk, s.log);
    forall e <- s.log ensures Revert(s.disk, e).error.None? && (!e.CniFile? ==> e.path !in d.files) {
      EntryReverts(cfg, linkerd, states, steps, k, e);
    }
    NoOwnErrors(s.disk, s.log);
    forall q | q in Filenames(s.log) && !Watched(q) ensures q !in d.files {
      var e :| e in s.log && e.path == q;
    }
    if Watched(p) && p in s.disk.files {
      QuiescentIsSettled(cfg, linkerd, states, steps, k, p);
      RevertedConfiguration(s.disk, p, linkerd, s.origin[p]);
      assert SameAt(d, Revert(s.disk, CniFile(p)).disk, CniFile(p).path);
    }
  }

  lemma {:induction false} EntryReverts(
    cfg: Config, linkerd: Json, states: seq<Sys>, steps: seq<Step>, k: nat, e: Entry)
    requires ConfigOk(cfg, linkerd) && IsRun(cfg, states, steps) && k < |states|
    requires (forall step <- steps :: SoundStep(step)) && AllSound(states[0].disk.files)
    requires Quiescent(states[k]) && states[k].disk.broken == {} && e in states[k].log
    ensures e == EntryFor(e.path)
    ensures Revert(states[k].disk, e).error.None?
    ensures !e.CniFile? ==> e.path !in Revert(states[k].disk, e).disk.files
  {
    RunInv(cfg, linkerd, states, steps, k);
    if e.CniFile? && e.path in states[k].disk.files {
      RunKeepsSound(cfg, linkerd, states, steps, k);
      QuiescentIsSettled(cfg, linkerd, states, steps, k, e.path);
      RevertedConfiguration(states[k].disk, e.path, linkerd, states[k].origin[e.path]);
    }
  }

  lemma {:induction false} NoOwnErrors(d: Disk, log: seq<Entry>)
    requires forall e <- log :: Revert(d, e).error.None?
    ensures OwnErrors(d, log) == []
  {
    if log != [] {
      assert log[|log| - 1] in log;
      NoOwnErrors(d, log[..|log| - 1]);
    }
  }

  /** Removal joined to what external writers wrote: after a configuration is written and left alone,
      running to any later quiescence and then Remove leave the `.conflist` of that name with exactly
      the plugins, other than linkerd, and the other keys of the version that survives. */
  lemma {:induction false} RemoveLeavesLastVersion(
    cfg: Config, linkerd: Json, states: seq<Sys>, steps: seq<Step>, i: nat, k: nat, p: Path, c: Content)
    requires ConfigOk(cfg, linkerd) && IsRun(cfg, states, steps) && i < k < |states|
    requires (forall step <- steps :: SoundStep(step)) && AllSound(states[0].disk.files)
    requires Quiescent(states[k]) && states[k].disk.broken == {}
    requires steps[i] == ExternalWrite(p, c) && Watched(p) && LeftAlone(steps, i + 1, k, p)
    ensures Holds(RemoveAll(states[k].disk, states[k].log).0, Destination(p), Survivor(states[i], p, c))
  {
    LastExternalVersionWins(cfg, linkerd, states, steps, i, k, p, c);
    RemoveLeaves(cfg, linkerd, states, steps, k, Destination(p), Survivor(states[i], p, c));
  }

  /** The same for a configuration that was there before the process first started. */
  lemma {:induction false} RemoveLeavesFirstVersion(
    cfg: Config, linkerd: Json, states: seq<Sys>, steps: seq<Step>, k: nat, p: Path)
    requires ConfigOk(cfg, linkerd) && IsRun(cfg, states, steps) && k < |states|
    requires (forall step <- steps :: SoundStep(step)) && AllSound(states[0].disk.files)
    requires Quiescent(states[k]) && states[k].disk.broken == {}
    requires p in states[0].disk.files && Watched(p) && LeftAlone(steps, 0, k, p)
    ensures Holds(RemoveAll(states[k].disk, states[k].log).0, Destination(p),
                  Survivor(states[0], p, states[0].disk.files[p]))
  {
    FirstVersionWins(cfg, linkerd, states, steps, k, p);
    RemoveLeaves(cfg, linkerd, states, steps, k, Destination(p), Survivor(states[0], p, states[0].disk.files[p]));
  }

  /** The file is there and is the version as a list, minus linkerd. */
  ghost predicate Holds(d: Disk, p: Path, version: Content) {
    && p in d.files && UnmarshalMap(d.files[p]).Ok? && UnmarshalMap(version).Ok?
    && WithoutLinkerd(UnmarshalMap(d.files[p]).value, UnmarshalMap(version).value)
  }

  lemma {:induction false} RemoveLeaves(
    cfg: Config, linkerd: Json, states: seq<Sys>, steps: seq<Step>, k: nat, list: Path, version: Content)
    requires ConfigOk(cfg, linkerd) && IsRun(cfg, states, steps) && k < |states|
    requires (forall step <- steps :: SoundStep(step)) && AllSound(states[0].disk.files)
    requires Quiescent(states[k]) && states[k].disk.broken == {} && Watched(list)
    requires list in states[k].disk.files && SettledContent(states[k].disk.files[list], linkerd, version)
    ensures Holds(RemoveAll(states[k].disk, states[k].log).0, list, version)
  {
    var s := states[k];
    RunInv(cfg, linkerd, states, steps, k);
    RunKeepsSound(cfg, linkerd, states, steps, k);
    QuiescentIsSettled(cfg, linkerd, states, steps, k, list);
    RemoveIsPointwise(s.disk, s.log);
    RevertedConfiguration(s.disk, list, linkerd, version);
    assert SameAt(RemoveAll(s.disk, s.log).0, Revert(s.disk, CniFile(list)).disk, CniFile(list).path);
  }

  // ---- Everything written is logged ------------------------------------------------------

  /** The step puts new content at the path. */
  ghost predicate Puts(s: Sys, s': Sys, p: Path) {
    p in s'.disk.files && (p !in s.disk.files || s'.disk.files[p] != s.disk.files[p])
  }

  ghost predicate Temporary(p: Path) {
    exists q :: p == Temp(q)
  }

  lemma {:induction false} BinariesPut(files: map<Path, Content>, binaries: seq<(Path, Content)>, p: Path)
    requires forall b <- binaries :: b.0 != p
    ensures p in InstallBinaries(files, binaries) ==> p in files && InstallBinaries(files, binaries)[p] == files[p]
  {
    if binaries != [] {
      assert binaries[|binaries| - 1] in binaries;
      BinariesPut(files, binaries[..|binaries| - 1], p);
    }
  }

  lemma {:induction false} K8sPuts(cfg: Config, s: Sys, p: Path)
    requires Puts(s, ReconfigureK8s(cfg, s), p) && !Temporary(p)
    ensures p in ReconfigureK8s(cfg, s).written
  {}

  lemma {:induction false} MicroPuts(s: Sys, p: Path)
    requires s.pc.Busy? && Shape(s) && Puts(s, MicroStep(s), p) && !Temporary(p)
    ensures p in MicroStep(s).written
  {
    MicroFiles(s);
    if s.pc.stage != Renaming { OtherStepsKeep(s); }
  }

  /** Whatever the process puts at a path that is not a temporary one, it records as written. */
  lemma {:induction false} StepRecordsWrites(cfg: Config, s: Sys, step: Step, p: Path)
    requires Enabled(cfg, s, step) && Internal(step) && Shape(s)
    requires Puts(s, Apply(cfg, s, step), p) && !Temporary(p)
    ensures p in Apply(cfg, s, step).written
  {
    match step {
      case Dispatch => DispatchPuts(cfg, s, p);
      case Micro => MicroPuts(s, p);
      case Boot(entries) =>
        if forall b <- cfg.binaries :: b.0 != p { BinariesPut(s.disk.files, cfg.binaries, p); }
      case _ =>
    }
  }

  lemma {:induction false} DispatchPuts(cfg: Config, s: Sys, p: Path)
    requires s.pc.Idle? && s.disk.events != [] && Puts(s, DispatchNext(cfg, s), p) && !Temporary(p)
    ensures p in DispatchNext(cfg, s).written
  {
    var e := s.disk.events[0];
    if Applies(e) && e.path.dir.TokenDir? && HasSuffix(e.path.base, "..data") {
      K8sPuts(cfg, Popped(s), p);
    } else if Applies(e) && e.path.dir.ConfigDir? && IsCniFile(e.path) {
      BeginOutcome(cfg, Popped(s), e.path);
    }
  }

  /** The process neither dies nor starts in between. */
  ghost predicate OneProcess(steps: seq<Step>, i: nat, k: nat)
    requires k <= |steps|
  {
    forall j :: i <= j < k ==> !steps[j].Crash? && !steps[j].Boot?
  }

  lemma {:induction false} WrittenGrows(cfg: Config, s: Sys, step: Step)
    requires Enabled(cfg, s, step) && !step.Crash? && !step.Boot?
    ensures s.written <= Apply(cfg, s, step).written
  {
    if step.Dispatch? && s.disk.events[0].path.dir.ConfigDir? {
      BeginOutcome(cfg, Popped(s), s.disk.events[0].path);
    }
  }

  lemma {:induction false} WrittenStays(cfg: Config, states: seq<Sys>, steps: seq<Step>, i: nat, k: nat, p: Path)
    requires IsRun(cfg, states, steps) && i <= k < |states| && OneProcess(steps, i, k) && p in states[i].written
    ensures p in states[k].written
  {
    if i < k {
      WrittenStays(cfg, states, steps, i, k - 1, p);
      assert StepsAt(cfg, states, steps, k - 1);
      WrittenGrows(cfg, states[k - 1], steps[k - 1]);
    }
  }

  /** Everything the process puts anywhere but at a temporary path, from its start on, is in the log
      as long as it lives; only the file just renamed is still about to be logged. */
  lemma {:induction false} WritesAreLogged(
    cfg: Config, linkerd: Json, states: seq<Sys>, steps: seq<Step>, i: nat, k: nat, p: Path)
    requires ConfigOk(cfg, linkerd) && IsRun(cfg, states, steps) && i < k < |states| && OneProcess(steps, i + 1, k)
    requires Internal(steps[i]) && Puts(states[i], states[i + 1], p) && !Temporary(p)
    ensures p in Filenames(states[k].log)
            || (states[k].pc.Busy? && states[k].pc.stage == Logging && states[k].pc.plan.dst == p)
  {
    assert StepsAt(cfg, states, steps, i);
    RunInv(cfg, linkerd, states, steps, i);
    StepRecordsWrites(cfg, states[i], steps[i], p);
    WrittenStays(cfg, states, steps, i + 1, k, p);
    RunInv(cfg, linkerd, states, steps, k);
  }
}

/** internal/cni: the installer object and the file system it works on, updated in place by the
    installer's own methods. Every method is tied to the state machine of CniMachine. */
module CniInstaller {
  import opened Text
  import opened CniConfig
  import opened CniPaths
  import opened CniInvariant
  import opened CniMachine
  import opened CniTermination
  import opened CniRemoval

  /** The host's files, with the notifications of a watcher on them. */
  class Host {
    var files: map<Path, Content>
    var broken: set<Path>
    var events: seq<Event>

    ghost function View(): Disk
      reads this
    {
      Disk(files, broken, events)
    }

    method WriteFile(p: Path, c: Content) returns (ok: bool)
      modifies this
      ensures ok == CniMachine.WriteFile(old(View()), p, c).Some?
      ensures View() == if ok then CniMachine.WriteFile(old(View()), p, c).value else old(View())
    {
      ok := p !in broken;
      if ok {
        if p !in files {
          events := events + [Event(p, {Create})];
        }
        events := events + [Event(p, {Write})];
        files := files[p := c];
        assert old(events) + [] == old(events);
      }
    }

    method RenameFile(from: Path, to: Path) returns (ok: bool)
      modifies this
      ensures ok == CniMachine.RenameFile(old(View()), from, to).Some?
      ensures View() == if ok then CniMachine.RenameFile(old(View()), from, to).value else old(View())
    {
      ok := from in files && to !in broken;
      if ok {
        var c := files[from];
        files := files - {from};
        files := files[to := c];
        events := events + [Event(from, {Rename}), Event(to, {Create})];
      }
    }

    method RemoveFile(p: Path) returns (ok: bool)
      modifies this
      ensures ok == CniMachine.RemoveFile(old(View()), p).Some?
      ensures View() == if ok then CniMachine.RemoveFile(old(View()), p).value else old(View())
    {
      ok := p in files && p !in broken;
      if ok {
        files := files - {p};
        events := events + [Event(p, {Remove})];
      }
    }

    /** os.ReadDir on the configuration directory. */
    method ReadConfigDir() returns (entries: seq<Path>)
      ensures forall p <- files.Keys :: p.dir.ConfigDir? ==> p in entries
    {
      entries := [];
      var rest := files.Keys;
      while rest != {}
        invariant rest <= files.Keys
        invariant forall p <- files.Keys - rest :: p.dir.ConfigDir? ==> p in entries
        decreases |rest|
      {
        var p :| p in rest;
        rest := rest - {p};
        if p.dir.ConfigDir? {
          entries := entries + [p];
        }
      }
    }
  }

  // ---- Copying binaries ------------------------------------------------------------------

  /** copyFile: through a temporary name. */
  function CopyFile(d: Disk, p: Path, c: Content): (Disk, bool) {
    match CniMachine.WriteFile(d, Temp(p), c)
    case None => (d, false)
    case Some(d') =>
      match CniMachine.RenameFile(d', Temp(p), p)
      case None => (d', false)
      case Some(d'') => (d'', true)
  }

  /** install: copies until one fails, logging each file that is in place. */
  function InstallAll(d: Disk, log: seq<Entry>, binaries: seq<(Path, Content)>): (Disk, seq<Entry>, bool)
    decreases |binaries|
  {
    if binaries == [] then (d, log, true)
    else
      var (d', ok) := CopyFile(d, binaries[0].0, binaries[0].1);
      if !ok then (d', log, false)
      else InstallAll(d', CniMachine.AppendEntry(log, InstalledFile(binaries[0].0)), binaries[1..])
  }

  lemma {:induction false} InstallAllNext(d: Disk, log: seq<Entry>, binaries: seq<(Path, Content)>)
    requires binaries != []
    ensures var (d1, log1, ok) := InstallAll(d, log, binaries[..|binaries| - 1]);
            var last := binaries[|binaries| - 1];
            InstallAll(d, log, binaries) ==
              if !ok then (d1, log1, false)
              else
                var (d2, copied) := CopyFile(d1, last.0, last.1);
                (d2, if copied then CniMachine.AppendEntry(log1, InstalledFile(last.0)) else log1, copied)
    decreases |binaries|
  {
    if |binaries| == 1 {
      assert binaries[1..] == [] && binaries[..0] == [];
    } else {
      var (d', ok) := CopyFile(d, binaries[0].0, binaries[0].1);
      if ok {
        InstallAllNext(d', CniMachine.AppendEntry(log, InstalledFile(binaries[0].0)), binaries[1..]);
        assert binaries[1..][..|binaries| - 2] == binaries[..|binaries| - 1][1..];
      }
    }
  }

  /** A complete installation puts every binary in place and logs it. */
  lemma {:induction false} InstalledInFull(d: Disk, binaries: seq<(Path, Content)>)
    requires InstallAll(d, [], binaries).2
    ensures InstallAll(d, [], binaries).0.files == InstallBinaries(d.files, binaries)
    ensures InstallAll(d, [], binaries).0.broken == d.broken
    ensures InstallAll(d, [], binaries).1 == LogBinaries(binaries)
  {
    if binaries != [] {
      InstallAllNext(d, [], binaries);
      InstalledInFull(d, binaries[..|binaries| - 1]);
      var last := binaries[|binaries| - 1];
      var files := InstallBinaries(d.files, binaries[..|binaries| - 1]);
      assert (files[Temp(last.0) := last.1] - {Temp(last.0)})[last.0 := last.1] ==
        (files - {Temp(last.0)})[last.0 := last.1];
    }
  }

  /** A binary whose place or temporary name fails cannot be copied. */
  ghost predicate Copyable(d: Disk, b: (Path, Content)) {
    b.0 !in d.broken && Temp(b.0) !in d.broken
  }

  lemma {:induction false} CopyOutcome(d: Disk, b: (Path, Content))
    ensures CopyFile(d, b.0, b.1).1 <==> Copyable(d, b)
    ensures CopyFile(d, b.0, b.1).0.broken == d.broken
  {}

  /** The first of them, copied and logged, or not copied at all. */
  lemma {:induction false} InstallFirst(d: Disk, log: seq<Entry>, binaries: seq<(Path, Content)>)
    returns (copied: Disk)
    requires binaries != []
    ensures copied.broken == d.broken
    ensures Copyable(d, binaries[0]) ==>
              InstallAll(d, log, binaries) ==
              InstallAll(copied, CniMachine.AppendEntry(log, InstalledFile(binaries[0].0)), binaries[1..])
    ensures !Copyable(d, binaries[0]) ==> InstallAll(d, log, binaries) == (copied, log, false)
  {
    CopyOutcome(d, binaries[0]);
    copied := CopyFile(d, binaries[0].0, binaries[0].1).0;
  }

  /** The first `n` can be copied, and the next one cannot. */
  ghost predicate StopsAt(d: Disk, binaries: seq<(Path, Content)>, n: nat) {
    && n <= |binaries| && (forall k :: 0 <= k < n ==> Copyable(d, binaries[k]))
    && (n < |binaries| ==> !Copyable(d, binaries[n]))
  }

  lemma {:induction false} StopsLater(d: Disk, binaries: seq<(Path, Content)>, copied: Disk, n: nat)
    requires binaries != [] && Copyable(d, binaries[0])
    requires copied.broken == d.broken && StopsAt(copied, binaries[1..], n)
    ensures StopsAt(d, binaries, n + 1) && Paths(binaries[..n + 1]) == {binaries[0].0} + Paths(binaries[1..][..n])
  {
    FirstOfPaths(binaries[0], binaries[1..][..n]);
    assert binaries[..n + 1] == [binaries[0]] + binaries[1..][..n];
    assert forall k :: 1 <= k < |binaries| ==> binaries[k] == binaries[1..][k - 1];
  }

  /** Copying stops at the first binary that cannot be copied; what was copied before it, and only that, is
      logged. */
  lemma {:induction false} InstallStopsAtFailure(d: Disk, log: seq<Entry>, binaries: seq<(Path, Content)>)
    returns (n: nat)
    ensures StopsAt(d, binaries, n)
    ensures var (d', log', ok) := InstallAll(d, log, binaries);
            && d'.broken == d.broken && (ok <==> n == |binaries|)
            && Filenames(log') == Filenames(log) + Paths(binaries[..n])
    decreases |binaries|
  {
    n := 0;
    if binaries != [] {
      var copied := InstallFirst(d, log, binaries);
      if Copyable(d, binaries[0]) {
        var entry := InstalledFile(binaries[0].0);
        var rest := InstallStopsAtFailure(copied, CniMachine.AppendEntry(log, entry), binaries[1..]);
        AppendedNames(log, entry);
        StopsLater(d, binaries, copied, rest);
        n := rest + 1;
      }
    }
  }

  lemma {:induction false} AppendedNames(log: seq<Entry>, e: Entry)
    ensures Filenames(CniMachine.AppendEntry(log, e)) == Filenames(log) + {e.path}
  {
    if e.path in Filenames(log) {
      assert Filenames(log) == Filenames(log) + {e.path};
    } else {
      assert forall x :: x in log + [e] <==> x in log || x == e;
    }
  }

  function Paths(binaries: seq<(Path, Content)>): set<Path> {
    set b <- binaries :: b.0
  }

  lemma {:induction false} FirstOfPaths(first: (Path, Content), rest: seq<(Path, Content)>)
    ensures Paths([first] + rest) == {first.0} + Paths(rest)
  {
    assert forall b :: b in [first] + rest <==> b == first || b in rest;
  }

  /** The states a handler goes through, from where it starts to where it is done. */
  ghost function HandlerTrace(s: Sys): seq<Sys>
    decreases Rank(s.pc)
  {
    if s.pc.Busy? then [s] + HandlerTrace(MicroStep(s)) else [s]
  }

  lemma {:induction false} HandlerFrom(s: Sys, s': Sys)
    requires s.pc.Busy? && MicroStep(s) == s'
    ensures RunHandler(s) == RunHandler(s') && HandlerTrace(s) == [s] + HandlerTrace(s')
    ensures !s'.pc.Busy? ==> RunHandler(s') == s' && HandlerTrace(s') == [s']
  {}

  // ---- The installer ---------------------------------------------------------------------

  class Installer {
    const cfg: Config
    const host: Host
    var fileHashSet: map<Path, Digest>
    var log: seq<Entry>
    var logIdx: set<Path>
    var failed: bool
    ghost var origin: map<Path, Content>
    ghost var written: set<Path>
    ghost var trace: seq<Sys>

    ghost predicate Valid()
      reads this
    {
      logIdx == Filenames(log)
    }

    /** The installer and its host as a state of the machine. */
    ghost function State(pc: Pc): Sys
      reads this, host
    {
      Sys(host.View(), fileHashSet, log, failed, pc, origin, written)
    }

    /** NewInstaller, on a host whose files stem from the given external versions. */
    constructor (cfg: Config, host: Host, ghost origin: map<Path, Content>)
      ensures Valid()
      ensures this.cfg == cfg && this.host == host
      ensures State(Down) == Sys(host.View(), map[], [], false, Down, origin, {})
    {
      this.cfg := cfg;
      this.host := host;
      fileHashSet := map[];
      log := [];
      logIdx := {};
      failed := false;
      this.origin := origin;
      written := {};
      trace := [];
    }

    method AppendEntry(e: Entry)
      requires Valid()
      modifies this`log, this`logIdx
      ensures Valid()
      ensures log == CniMachine.AppendEntry(old(log), e)
    {
      if e.path in logIdx {
        return;
      }
      log := log + [e];
      logIdx := logIdx + {e.path};
    }

    /** reconfigureCNI. Whatever the outcome, the call goes through exactly the states of the machine's
        handler, a step at a time, so these are the states a crash can leave. */
    method ReconfigureCNI(configFilename: Path) returns (err: bool)
      requires Valid()
      modifies this`fileHashSet, this`log, this`logIdx, this`origin, this`written, this`trace, host
      ensures Valid()
      ensures State(Idle).(failed := failed || err) ==
              RunHandler(BeginReconfigure(cfg, old(State(Idle)), configFilename))
      ensures err ==> RunHandler(BeginReconfigure(cfg, old(State(Idle)), configFilename)).failed
      ensures trace == old(trace) + HandlerTrace(BeginReconfigure(cfg, old(State(Idle)), configFilename))
    {
      ghost var begun := BeginReconfigure(cfg, State(Idle), configFilename);
      if configFilename !in host.files {
        trace := trace + [begun];
        return false;
      }
      if configFilename in host.broken {
        trace := trace + [begun];
        return true;
      }
      var data := host.files[configFilename];
      if Lookup(fileHashSet, configFilename) == DigestOf(data) {
        trace := trace + [begun];
        return false;
      }
      var configuration := ChooseSource(cfg.sources);
      if configuration.None? {
        trace := trace + [begun];
        return true;
      }
      var merged := Inject(data, configuration.value);
      if merged.Err? {
        trace := trace + [begun];
        return true;
      }
      err := Rewrite(configFilename, merged.value);
      trace := trace + [if err then Fail(State(Idle)) else State(Idle)];
    }

    /** The handler has come from `begun` to `now`: the rest of it, and the states passed so far, are
        those of a handler started in `begun`. */
    ghost predicate Reached(begun: Sys, begunTrace: seq<Sys>, now: Sys)
      reads this`trace
    {
      RunHandler(begun) == RunHandler(now) && begunTrace + HandlerTrace(begun) == trace + HandlerTrace(now)
    }

    /** Writes the merged configuration to a temporary file. */
    method WriteTemp(ghost src: Path, dst: Path, merged: Content) returns (ok: bool)
      modifies this`trace, host
      ensures Reached(old(State(Busy(Writing, Plan(src, dst, merged)))), old(trace),
                      if ok then State(Busy(Renaming, Plan(src, dst, merged))) else Fail(State(Idle)))
    {
      ghost var plan := Plan(src, dst, merged);
      ghost var begun := State(Busy(Writing, plan));
      ok := host.WriteFile(Temp(dst), merged);
      HandlerFrom(begun, if ok then State(Busy(Renaming, plan)) else Fail(State(Idle)));
      trace := trace + [begun];
    }

    /** Renames it into place. */
    method RenameTemp(ghost src: Path, dst: Path, ghost merged: Content) returns (ok: bool)
      modifies this`origin, this`written, this`trace, host
      ensures Reached(old(State(Busy(Renaming, Plan(src, dst, merged)))), old(trace),
                      if ok then State(Busy(Logging, Plan(src, dst, merged))) else Fail(State(Idle)))
    {
      ghost var plan := Plan(src, dst, merged);
      ghost var begun := State(Busy(Renaming, plan));
      ok := host.RenameFile(Temp(dst), dst);
      if ok {
        written := written + {dst};
        origin := if src in origin then origin[dst := origin[src]] else origin;
      }
      HandlerFrom(begun, if ok then State(Busy(Logging, plan)) else Fail(State(Idle)));
      trace := trace + [begun];
    }

    /** Logs the file and records its digest. */
    method Record(ghost src: Path, dst: Path, merged: Content)
      requires Valid()
      modifies this`fileHashSet, this`log, this`logIdx, this`trace
      ensures Valid()
      ensures Reached(old(State(Busy(Logging, Plan(src, dst, merged)))), old(trace),
                      State(if src == dst then Idle else Busy(Removing, Plan(src, dst, merged))))
    {
      ghost var plan := Plan(src, dst, merged);
      ghost var begun := State(Busy(Logging, plan));
      AppendEntry(CniFile(dst));
      ghost var logged := State(Busy(Hashing, plan));
      HandlerFrom(begun, logged);
      trace := trace + [begun];
      fileHashSet := fileHashSet[dst := DigestOf(merged)];
      HandlerFrom(logged, State(if src == dst then Idle else Busy(Removing, plan)));
      trace := trace + [logged];
    }

    /** Removes the `.conf` that has been rewritten. */
    method RemoveSource(src: Path, ghost dst: Path, ghost merged: Content) returns (ok: bool)
      modifies this`trace, host
      ensures Reached(old(State(Busy(Removing, Plan(src, dst, merged)))), old(trace),
                      if ok then State(Idle) else Fail(State(Idle)))
    {
      ghost var begun := State(Busy(Removing, Plan(src, dst, merged)));
      ok := host.RemoveFile(src);
      HandlerFrom(begun, if ok then State(Idle) else Fail(State(Idle)));
      trace := trace + [begun];
    }

    /** The part of reconfigureCNI that writes. */
    method Rewrite(src: Path, merged: Content) returns (err: bool)
      requires Valid()
      modifies this`fileHashSet, this`log, this`logIdx, this`origin, this`written, this`trace, host
      ensures Valid()
      ensures Reached(old(State(Busy(Writing, Plan(src, Destination(src), merged)))), old(trace),
                      if err then Fail(State(Idle)) else State(Idle))
    {
      var configFilename := src;
      var isConf := HasSuffix(configFilename.base, ".conf");
      if isConf {
        configFilename := Path(configFilename.dir, configFilename.base + "list");
      }
      DestinationMoves(src);
      var ok := WriteTemp(src, configFilename, merged);
      if !ok {
        return true;
      }
      ok := RenameTemp(src, configFilename, merged);
      if !ok {
        return true;
      }
      Record(src, configFilename, merged);
      if isConf {
        ok := RemoveSource(src, configFilename, merged);
      }
      return !ok;
    }

    /** reconfigureK8s, reduced to its effect on the host and the log. */
    method ReconfigureK8s() returns (err: bool)
      requires Valid()
      modifies this`log, this`logIdx, this`written, host
      ensures Valid()
      ensures State(Idle).(failed := failed || err) == CniMachine.ReconfigureK8s(cfg, old(State(Idle)))
      ensures err ==> CniMachine.ReconfigureK8s(cfg, old(State(Idle))).failed
    {
      var ok := host.WriteFile(Temp(cfg.kubeconfig), cfg.kubeText);
      if !ok {
        return true;
      }
      ok := host.RenameFile(Temp(cfg.kubeconfig), cfg.kubeconfig);
      if !ok {
        return true;
      }
      written := written + {cfg.kubeconfig};
      AppendEntry(K8sFile(cfg.kubeconfig));
      return false;
    }

    /** One round of the event loop: the next event goes to the watch on its directory, and an error
        of the handler is reported without stopping the loop. */
    method HandleNext()
      requires Valid() && host.events != []
      modifies this, host
      ensures Valid()
      ensures State(Idle) == HandleEvent(cfg, old(State(Idle)))
    {
      var event := host.events[0];
      host.events := host.events[1..];
      var err := false;
      if Applies(event) {
        match event.path.dir {
          case TokenDir =>
            if HasSuffix(event.path.base, "..data") {
              err := ReconfigureK8s();
            }
          case ConfigDir =>
            if IsCniFile(event.path) {
              err := ReconfigureCNI(event.path);
            }
          case _ =>
        }
      }
      if err {
        failed := true;
      }
    }

    /** The event loop of watchFS until no event is left. It terminates, although handlers enqueue
        events, and ends where the machine comes to rest. */
    method WatchUntilQuiet()
      requires Valid() && Ready(State(Idle))
      requires cfg.kubeconfig.dir == ConfigDir && KindOf(cfg.kubeconfig).NotCni?
      modifies this, host
      ensures Valid()
      ensures State(Idle) == Drain(cfg, old(State(Idle)))
    {
      while |host.events| > 0
        invariant Valid() && Ready(State(Idle))
        invariant Drain(cfg, State(Idle)) == Drain(cfg, old(State(Idle)))
        decreases Measure(State(Idle)).0, Measure(State(Idle)).1, Measure(State(Idle)).2,
                  Measure(State(Idle)).3, Measure(State(Idle)).4, Measure(State(Idle)).5
      {
        HandlerProgress(cfg, State(Idle));
        HandleNext();
      }
    }

    /** installRegularFiles: copies every binary, logging each, until a copy fails. */
    method InstallRegularFiles() returns (ok: bool)
      requires Valid()
      modifies this`log, this`logIdx, host
      ensures Valid()
      ensures (host.View(), log, ok) == InstallAll(old(host.View()), old(log), cfg.binaries)
    {
      var i := 0;
      ok := true;
      while i < |cfg.binaries|
        invariant 0 <= i <= |cfg.binaries| && ok && Valid()
        invariant InstallAll(old(host.View()), old(log), cfg.binaries) ==
                  InstallAll(host.View(), log, cfg.binaries[i..])
      {
        var (p, c) := cfg.binaries[i];
        ghost var view := host.View();
        assert cfg.binaries[i..][0] == (p, c) && cfg.binaries[i..][1..] == cfg.binaries[i + 1..];
        ok := host.WriteFile(Temp(p), c);
        if !ok {
          return;
        }
        ok := host.RenameFile(Temp(p), p);
        if !ok {
          return;
        }
        assert CopyFile(view, p, c) == (host.View(), true);
        AppendEntry(InstalledFile(p));
        i := i + 1;
      }
    }

    /** The new watcher's queue, with the events Run sends itself. */
    method SendInitialEvents(entries: seq<Path>)
      modifies host`events
      ensures host.events == [Event(DATA, {Create})] + EntryEvents(entries)
    {
      host.events := [Event(DATA, {Create})];
      var i := 0;
      while i < |entries|
        invariant 0 <= i <= |entries|
        invariant host.events == [Event(DATA, {Create})] + EntryEvents(entries)[..i]
      {
        host.events := host.events + [Event(entries[i], {Write})];
        i := i + 1;
      }
    }

    /** Run, up to the event loop: the binaries are installed, the watches established, and the initial
        events sent. */
    method Start() returns (ok: bool, entries: seq<Path>)
      requires Valid() && log == []
      modifies this, host
      ensures Valid()
      ensures ok ==> State(Idle) == Started(cfg, old(State(Down)), entries)
      ensures ok ==> forall p <- old(host.files).Keys ::
                       p.dir.ConfigDir? && (forall b <- cfg.binaries :: b.0.dir != ConfigDir) ==> p in entries
      ensures !ok ==> State(Down) == old(State(Down)).(disk := host.View(), log := log)
                      && (host.View(), log, false) == InstallAll(old(host.View()), [], cfg.binaries)
    {
      entries := [];
      ok := InstallRegularFiles();
      if !ok {
        return;
      }
      InstalledInFull(old(host.View()), cfg.binaries);
      entries := host.ReadConfigDir();
      SendInitialEvents(entries);
      written := set b <- cfg.binaries :: b.0;
      forall p <- old(host.files).Keys | p.dir.ConfigDir? && forall b <- cfg.binaries :: b.0.dir != ConfigDir
        ensures p in entries
      {
        BinariesInstalled(old(host.files), cfg.binaries, p);
      }
    }

    // ---- Remove --------------------------------------------------------------------------

    /** cniFile.revert. */
    method RevertCniFile(p: Path) returns (err: Option<RevertError>)
      modifies host
      ensures Reverted(host.View(), err) == RevertCni(old(host.View()), p)
    {
      if p !in host.files {
        return None;
      }
      if p in host.broken {
        return Some(ReadFailed(p));
      }
      var val := UnmarshalMap(host.files[p]);
      if val.Err? {
        return Some(BadConfiguration(p, val.error));
      }
      var plugins := PluginsOf(val.value);
      if plugins.None? {
        return Some(BadConfiguration(p, NoPlugins));
      }
      var found := ScanForLinkerd(plugins.value);
      if found.NotAnObject? {
        return Some(BadConfiguration(p, InvalidPlugin));
      }
      FindFromMeaning(plugins.value, 0);
      if found.At? {
        var rest := plugins.value[..found.index] + plugins.value[found.index + 1..];
        var fields := Fields(val.value)[KEY_PLUGINS := JArray(rest)];
        var ok := host.WriteFile(p, Printed(JObject(fields)));
        if !ok {
          return Some(ReadFailed(p));
        }
      }
      return None;
    }

    /** installedFile.revert and k8sFile.revert. */
    method RevertWholeFile(p: Path) returns (err: Option<RevertError>)
      modifies host
      ensures Reverted(host.View(), err) == RevertByRemoval(old(host.View()), p)
    {
      if p in host.files {
        var ok := host.RemoveFile(p);
        if !ok {
          return Some(RemoveFailed(p));
        }
      }
      return None;
    }

    method RevertEntry(e: Entry) returns (err: Option<RevertError>)
      modifies host
      ensures Reverted(host.View(), err) == Revert(old(host.View()), e)
    {
      match e {
        case CniFile(p) => err := RevertCniFile(p);
        case K8sFile(p) => err := RevertWholeFile(p);
        case InstalledFile(p) => err := RevertWholeFile(p);
      }
    }

    /** Remove: every logged entry is reverted, and errors are collected on the way. */
    method Remove() returns (errs: seq<RevertError>)
      modifies host
      ensures (host.View(), errs) == RemoveAll(old(host.View()), log)
    {
      errs := [];
      var i := 0;
      while i < |log|
        invariant 0 <= i <= |log|
        invariant (host.View(), errs) == RemoveAll(old(host.View()), log[..i])
      {
        RemoveAllNext(old(host.View()), log, i);
        var err := RevertEntry(log[i]);
        assert errs + [] == errs;
        if err.Some? {
          errs := errs + [err.value];
        }
        i := i + 1;
      }
      assert log[..|log|] == log;
    }
  }

  lemma {:induction false} RemoveAllNext(d: Disk, log: seq<Entry>, i: nat)
    requires i < |log|
    ensures RemoveAll(d, log[..i + 1]) ==
            var (before, errors) := RemoveAll(d, log[..i]);
            var last := Revert(before, log[i]);
            (last.disk, errors + ErrorList(last.error))
  {
    assert log[..i + 1][..i] == log[..i];
  }

  lemma {:induction false} DestinationMoves(src: Path)
    ensures HasSuffix(src.base, ".conf") <==> Destination(src) != src
  {}

  ghost predicate NoMore(a: (nat, nat, nat, nat, nat, nat), b: (nat, nat, nat, nat, nat, nat)) {
    a == b || Less(a, b)
  }

  lemma {:induction false} LessTransitive(
    a: (nat, nat, nat, nat, nat, nat), b: (nat, nat, nat, nat, nat, nat), c: (nat, nat, nat, nat, nat, nat))
    requires Less(a, b) && NoMore(b, c)
    ensures Less(a, c)
  {}

  lemma {:induction false} LessFromNoMore(
    a: (nat, nat, nat, nat, nat, nat), b: (nat, nat, nat, nat, nat, nat), c: (nat, nat, nat, nat, nat, nat))
    requires NoMore(a, b) && Less(b, c)
    ensures Less(a, c)
  {}

  ghost predicate Below(s: Sys, top: (nat, nat, nat, nat, nat, nat)) {
    Ready(s) && !s.pc.Down? && NoMore(Measure(s), top)
  }

  lemma {:induction false} MicroStaysBelow(s: Sys, top: (nat, nat, nat, nat, nat, nat))
    requires Below(s, top) && s.pc.Busy?
    ensures Below(MicroStep(s), top) && Rank(MicroStep(s).pc) < Rank(s.pc)
  {
    MicroRank(s);
    MicroReady(s);
    MicroLess(s);
    LessTransitive(Measure(MicroStep(s)), Measure(s), top);
  }

  lemma {:induction false} HandlerStaysBelow(s: Sys, top: (nat, nat, nat, nat, nat, nat))
    requires Below(s, top)
    ensures Below(RunHandler(s), top)
    decreases Rank(s.pc)
  {
    if s.pc.Busy? {
      MicroStaysBelow(s, top);
      HandlerStaysBelow(MicroStep(s), top);
    }
  }

  /** A whole handler call lowers the measure and leaves the resting point where it was. */
  lemma {:induction false} HandlerProgress(cfg: Config, s: Sys)
    requires Ready(s) && s.pc.Idle? && s.disk.events != []
    requires cfg.kubeconfig.dir == ConfigDir && KindOf(cfg.kubeconfig).NotCni?
    ensures var s' := HandleEvent(cfg, s);
            && Ready(s') && s'.pc.Idle? && Less(Measure(s'), Measure(s)) && Drain(cfg, s') == Drain(cfg, s)
  {
    var s1 := DispatchNext(cfg, s);
    LoopStepLess(cfg, s);
    HandlerStaysBelow(s1, Measure(s1));
    LessFromNoMore(Measure(RunHandler(s1)), Measure(s1), Measure(s));
    DrainByHandlers(cfg, s1);
    assert LoopStep(cfg, s) == s1;
  }
}

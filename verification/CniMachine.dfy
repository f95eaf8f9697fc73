/** internal/cni as a state machine over its file-system steps: the watch loop (watch_fs.go,
    run.go) dispatching events to the handlers of conf.go, the environment writing configurations
    at any time between handler calls, and the process dying at any step. */
module CniMachine {
  import opened Text
  import opened CniConfig
  import opened CniPaths

  // ---- Files and their notifications -----------------------------------------------------

  datatype Op = Create | Write | Rename | Remove | Chmod

  datatype Event = Event(path: Path, ops: set<Op>)

  /** watch.applies: both watches look for the same operations. */
  predicate Applies(e: Event) { e.ops * {Create, Rename, Write} != {} }

  /** The file system, and the notifications the watcher has not delivered yet. An operation on a
      path in `broken` fails. */
  datatype Disk = Disk(files: map<Path, Content>, broken: set<Path>, events: seq<Event>)

  function WriteFile(d: Disk, p: Path, c: Content): Option<Disk> {
    if p in d.broken then None
    else
      var created := if p in d.files then [] else [Event(p, {Create})];
      Some(d.(files := d.files[p := c], events := d.events + created + [Event(p, {Write})]))
  }

  function RenameFile(d: Disk, from: Path, to: Path): Option<Disk> {
    if from !in d.files || to in d.broken then None
    else
      Some(d.(files := (d.files - {from})[to := d.files[from]],
              events := d.events + [Event(from, {Rename}), Event(to, {Create})]))
  }

  function RemoveFile(d: Disk, p: Path): Option<Disk> {
    if p !in d.files || p in d.broken then None
    else Some(d.(files := d.files - {p}, events := d.events + [Event(p, {Remove})]))
  }

  // ---- The installer ---------------------------------------------------------------------

  /** hashEncode: injective, and never the zero value a missing key reads as. */
  datatype Digest = NoDigest | DigestOf(content: Content)

  datatype Entry = InstalledFile(path: Path) | K8sFile(path: Path) | CniFile(path: Path)

  /** What the process is given: the sources of the plugin configuration, the kubeconfig's place
      and text, and the binaries to install. */
  datatype Config = Config(
    sources: seq<Option<Content>>, kubeconfig: Path, kubeText: Content, binaries: seq<(Path, Content)>)

  /** A rewrite under way: `src` becomes `dst` with the merged content. */
  datatype Plan = Plan(src: Path, dst: Path, merged: Content)

  datatype Stage = Writing | Renaming | Logging | Hashing | Removing

  datatype Pc = Down | Idle | Busy(stage: Stage, plan: Plan)

  /** `failed` records a handler error since the process started. `origin` and `written` are there
      for the properties only: the external content each file stems from, and the paths the
      installer has put in place since it started. */
  datatype Sys = Sys(
    disk: Disk, hashes: map<Path, Digest>, log: seq<Entry>, failed: bool, pc: Pc,
    origin: map<Path, Content>, written: set<Path>)

  function Lookup(hashes: map<Path, Digest>, p: Path): Digest {
    if p in hashes then hashes[p] else NoDigest
  }

  function Filenames(log: seq<Entry>): set<Path> {
    set e <- log :: e.path
  }

  /** appendEntry: a file name is logged once. */
  function AppendEntry(log: seq<Entry>, e: Entry): seq<Entry> {
    if e.path in Filenames(log) then log else log + [e]
  }

  function Fail(s: Sys): Sys { s.(failed := true, pc := Idle) }

  /** reconfigureK8s, reduced to its effect: the kubeconfig is written, renamed into place and
      logged. */
  function ReconfigureK8s(cfg: Config, s: Sys): Sys {
    match WriteFile(s.disk, Temp(cfg.kubeconfig), cfg.kubeText)
    case None => Fail(s)
    case Some(d) =>
      match RenameFile(d, Temp(cfg.kubeconfig), cfg.kubeconfig)
      case None => Fail(s.(disk := d))
      case Some(d') =>
        s.(disk := d', log := AppendEntry(s.log, K8sFile(cfg.kubeconfig)), written := s.written + {cfg.kubeconfig})
  }

  /** The part of reconfigureCNI that only reads: skip, fail, or plan the rewrite. */
  function BeginReconfigure(cfg: Config, s: Sys, name: Path): Sys {
    if name !in s.disk.files then s
    else if name in s.disk.broken then Fail(s)
    else if Lookup(s.hashes, name) == DigestOf(s.disk.files[name]) then s
    else
      match FirstSource(cfg.sources)
      case None => Fail(s)
      case Some(configuration) =>
        match InjectContent(s.disk.files[name], configuration)
        case Err(_) => Fail(s)
        case Ok(merged) => s.(pc := Busy(Writing, Plan(name, Destination(name), merged)))
  }

  /** One step of the part of reconfigureCNI that writes. */
  function MicroStep(s: Sys): Sys
    requires s.pc.Busy?
  {
    var plan := s.pc.plan;
    match s.pc.stage
    case Writing =>
      (match WriteFile(s.disk, Temp(plan.dst), plan.merged)
       case None => Fail(s)
       case Some(d) => s.(disk := d, pc := Busy(Renaming, plan)))
    case Renaming =>
      (match RenameFile(s.disk, Temp(plan.dst), plan.dst)
       case None => Fail(s)
       case Some(d) =>
         s.(disk := d, pc := Busy(Logging, plan), written := s.written + {plan.dst},
            origin := if plan.src in s.origin then s.origin[plan.dst := s.origin[plan.src]] else s.origin))
    case Logging =>
      s.(log := AppendEntry(s.log, CniFile(plan.dst)), pc := Busy(Hashing, plan))
    case Hashing =>
      s.(hashes := s.hashes[plan.dst := DigestOf(plan.merged)],
         pc := if plan.src == plan.dst then Idle else Busy(Removing, plan))
    case Removing =>
      (match RemoveFile(s.disk, plan.src)
       case None => Fail(s)
       case Some(d) => s.(disk := d, pc := Idle))
  }

  /** The event loop takes the next event to the handler of the watch on its directory. */
  function DispatchNext(cfg: Config, s: Sys): Sys
    requires s.disk.events != []
  {
    var e := s.disk.events[0];
    var s' := s.(disk := s.disk.(events := s.disk.events[1..]));
    if !Applies(e) then s'
    else
      match e.path.dir
      case TokenDir => if HasSuffix(e.path.base, "..data") then ReconfigureK8s(cfg, s') else s'
      case ConfigDir => if IsCniFile(e.path) then BeginReconfigure(cfg, s', e.path) else s'
      case _ => s'
  }

  function Rank(pc: Pc): nat {
    match pc
    case Busy(Writing, _) => 5
    case Busy(Renaming, _) => 4
    case Busy(Logging, _) => 3
    case Busy(Hashing, _) => 2
    case Busy(Removing, _) => 1
    case _ => 0
  }

  /** A handler run to its end. */
  function RunHandler(s: Sys): Sys
    decreases Rank(s.pc)
  {
    if s.pc.Busy? then RunHandler(MicroStep(s)) else s
  }

  function HandleEvent(cfg: Config, s: Sys): Sys
    requires s.disk.events != []
  {
    RunHandler(DispatchNext(cfg, s))
  }

  // ---- Starting --------------------------------------------------------------------------

  /** The files after copying every binary: each goes to a temporary name first and is renamed. */
  function InstallBinaries(files: map<Path, Content>, binaries: seq<(Path, Content)>): map<Path, Content> {
    if binaries == [] then files
    else
      var (p, c) := binaries[|binaries| - 1];
      (InstallBinaries(files, binaries[..|binaries| - 1]) - {Temp(p)})[p := c]
  }

  function LogBinaries(binaries: seq<(Path, Content)>): seq<Entry> {
    if binaries == [] then []
    else AppendEntry(LogBinaries(binaries[..|binaries| - 1]), InstalledFile(binaries[|binaries| - 1].0))
  }

  const DATA: Path := Path(TokenDir, "..data")

  function EntryEvents(entries: seq<Path>): (events: seq<Event>)
    ensures |events| == |entries|
  {
    seq(|entries|, k requires 0 <= k < |entries| => Event(entries[k], {Write}))
  }

  /** Run: the binaries are installed, the watches established, and one event sent for the token
      and one for every entry of the configuration directory. */
  function Started(cfg: Config, s: Sys, entries: seq<Path>): Sys {
    s.(disk := Disk(InstallBinaries(s.disk.files, cfg.binaries), s.disk.broken,
                    [Event(DATA, {Create})] + EntryEvents(entries)),
       log := LogBinaries(cfg.binaries),
       written := set b <- cfg.binaries :: b.0,
       pc := Idle)
  }

  // ---- Steps -----------------------------------------------------------------------------

  datatype Step =
    | Dispatch
    | Micro
    | Crash
    | Boot(entries: seq<Path>)
    | ExternalWrite(path: Path, content: Content)
    | ExternalDelete(path: Path)
    | Notification(event: Event)
    | Breakage(broken: set<Path>)

  /** External writes and deletions happen between handler calls or while the process is down. */
  ghost predicate Enabled(cfg: Config, s: Sys, step: Step) {
    match step
    case Dispatch => s.pc.Idle? && s.disk.events != []
    case Micro => s.pc.Busy?
    case Crash => true
    case Boot(entries) =>
      && s.pc.Down?
      && (forall p <- s.disk.files.Keys :: p.dir.ConfigDir? ==> p in entries)
      && (forall b <- cfg.binaries :: b.0 !in s.disk.broken && Temp(b.0) !in s.disk.broken)
    case ExternalWrite(_, _) => !s.pc.Busy?
    case ExternalDelete(p) => !s.pc.Busy? && p in s.disk.files
    case Notification(_) => !s.pc.Down?
    case Breakage(_) => true
  }

  function Apply(cfg: Config, s: Sys, step: Step): Sys
    requires step.Dispatch? ==> s.disk.events != []
    requires step.Micro? ==> s.pc.Busy?
  {
    match step
    case Dispatch => DispatchNext(cfg, s)
    case Micro => MicroStep(s)
    case Crash => Crashed(s)
    case Boot(entries) => Started(cfg, s, entries)
    case ExternalWrite(p, c) =>
      var created := if p in s.disk.files then [] else [Event(p, {Create})];
      var events := if s.pc.Down? then [] else s.disk.events + created + [Event(p, {Write})];
      s.(disk := s.disk.(files := s.disk.files[p := c], events := events), origin := s.origin[p := c])
    case ExternalDelete(p) =>
      var events := if s.pc.Down? then [] else s.disk.events + [Event(p, {Remove})];
      s.(disk := s.disk.(files := s.disk.files - {p}, events := events))
    case Notification(e) => s.(disk := s.disk.(events := s.disk.events + [e]))
    case Breakage(broken) => s.(disk := s.disk.(broken := broken))
  }

  /** The process dies: everything but the files is lost. */
  function Crashed(s: Sys): Sys {
    Sys(s.disk.(events := []), map[], [], false, Down, s.origin, {})
  }

  /** Before the process first starts, every file is as its external writer left it. */
  function Initial(files: map<Path, Content>, broken: set<Path>): Sys {
    Sys(Disk(files, broken, []), map[], [], false, Down, files, {})
  }

  /** A run: states from an initial one, each following from the one before by an enabled step. */
  ghost predicate IsRun(cfg: Config, states: seq<Sys>, steps: seq<Step>) {
    && |states| == |steps| + 1
    && states[0] == Initial(states[0].disk.files, states[0].disk.broken)
    && forall k :: 0 <= k < |steps| ==> StepsAt(cfg, states, steps, k)
  }

  ghost predicate StepsAt(cfg: Config, states: seq<Sys>, steps: seq<Step>, k: nat)
    requires k < |steps| && |states| == |steps| + 1
  {
    Enabled(cfg, states[k], steps[k]) && states[k + 1] == Apply(cfg, states[k], steps[k])
  }
}

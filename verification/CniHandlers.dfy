/** What one round of the installer's event loop does with each kind of event, from any state
    (internal/cni/run.go, internal/cni/conf.go). */
module CniHandlers {
  import opened Text
  import opened CniConfig
  import opened CniPaths
  import opened CniInvariant
  import opened CniMachine

  /** The three operations both watches look for. */
  predicate Noticed(e: Event) { Create in e.ops || Rename in e.ops || Write in e.ops }

  predicate TokenEvent(e: Event) { e.path.dir.TokenDir? && HasSuffix(e.path.base, "..data") }

  predicate ConfigurationEvent(e: Event) {
    e.path.dir.ConfigDir? && (HasSuffix(e.path.base, ".conf") || HasSuffix(e.path.base, ".conflist"))
  }

  lemma {:induction false} AppliesToNoticed(e: Event)
    ensures Applies(e) <==> Noticed(e)
  {
    if Noticed(e) {
      assert Create in e.ops * {Create, Rename, Write} || Rename in e.ops * {Create, Rename, Write}
          || Write in e.ops * {Create, Rename, Write};
    }
  }

  /** Any other event is dropped. */
  lemma {:induction false} OtherEventsIgnored(cfg: Config, s: Sys)
    requires s.pc.Idle? && s.disk.events != []
    requires var e := s.disk.events[0]; !Noticed(e) || (!TokenEvent(e) && !ConfigurationEvent(e))
    ensures HandleEvent(cfg, s) == Popped(s)
  {
    var e := s.disk.events[0];
    AppliesToNoticed(e);
    FilesByName(e.path.dir, e.path.base);
  }

  /** A change of the token rewrites the kubeconfig, whatever was there and whatever was logged before. */
  lemma {:induction false} KubeconfigRewritten(cfg: Config, s: Sys)
    requires s.pc.Idle? && s.disk.events != [] && Noticed(s.disk.events[0]) && TokenEvent(s.disk.events[0])
    ensures var s', temp, kubeconfig := HandleEvent(cfg, s), Temp(cfg.kubeconfig), cfg.kubeconfig;
            && s'.pc.Idle? && s'.hashes == s.hashes && s'.origin == s.origin && s'.disk.broken == s.disk.broken
            && if temp !in s.disk.broken && kubeconfig !in s.disk.broken then
                 && s'.disk.files == (s.disk.files - {temp})[kubeconfig := cfg.kubeText]
                 && kubeconfig in Filenames(s'.log) && s.log <= s'.log && s'.failed == s.failed
               else
                 && s'.failed && s'.log == s.log
                 && s'.disk.files - {temp} == s.disk.files - {temp}
  {
    AppliesToNoticed(s.disk.events[0]);
    var files, temp := s.disk.files, Temp(cfg.kubeconfig);
    assert cfg.kubeconfig != temp by { PathFacts(cfg.kubeconfig); }
    assert files[temp := cfg.kubeText] - {temp} == files - {temp};
  }

  /** What an event on a configuration makes of it: nothing if it is missing or is what the installer last
      recorded there; an error, which changes no file, if it or its sources cannot be used. */
  lemma {:induction false} ConfigurationNotRewritten(cfg: Config, s: Sys)
    requires s.pc.Idle? && s.disk.events != [] && Noticed(s.disk.events[0]) && ConfigurationEvent(s.disk.events[0])
    ensures var p := s.disk.events[0].path;
            && (p !in s.disk.files ==> HandleEvent(cfg, s) == Popped(s))
            && (p in s.disk.files && p in s.disk.broken ==> HandleEvent(cfg, s) == Popped(s).(failed := true))
            && (p in s.disk.files && p !in s.disk.broken ==>
                  && (p in s.hashes && s.hashes[p] == DigestOf(s.disk.files[p]) ==> HandleEvent(cfg, s) == Popped(s))
                  && (!(p in s.hashes && s.hashes[p] == DigestOf(s.disk.files[p])) ==>
                        (FirstSource(cfg.sources).None?
                         || InjectContent(s.disk.files[p], FirstSource(cfg.sources).value).Err? ==>
                           HandleEvent(cfg, s) == Popped(s).(failed := true))))
  {
    var e := s.disk.events[0];
    AppliesToNoticed(e);
    FilesByName(e.path.dir, e.path.base);
  }

  /** What a rewrite needs: nothing it touches fails, and its source is no temporary file. */
  ghost predicate Workable(s: Sys, plan: Plan) {
    && plan.src in s.disk.files && plan.src != Temp(plan.dst) && plan.dst != Temp(plan.dst)
    && {plan.src, plan.dst, Temp(plan.dst)} !! s.disk.broken
  }

  lemma {:induction false} WrittenAndRenamed(s: Sys, plan: Plan) returns (s': Sys)
    requires s.pc == Busy(Writing, plan) && Workable(s, plan)
    ensures s'.pc == Busy(Logging, plan) && RunHandler(s) == RunHandler(s')
    ensures s'.disk.files == (s.disk.files - {Temp(plan.dst)})[plan.dst := plan.merged]
    ensures s'.disk.broken == s.disk.broken
    ensures s'.hashes == s.hashes && s'.log == s.log && s'.failed == s.failed
  {
    var written := MicroStep(s);
    s' := MicroStep(written);
    assert RunHandler(s) == RunHandler(written) && RunHandler(written) == RunHandler(s');
    assert s.disk.files[Temp(plan.dst) := plan.merged] - {Temp(plan.dst)} == s.disk.files - {Temp(plan.dst)};
  }

  lemma {:induction false} LoggedAndHashed(s: Sys, plan: Plan)
    requires s.pc == Busy(Logging, plan) && plan.src in s.disk.files && plan.src !in s.disk.broken
    ensures var s' := RunHandler(s);
            && s'.pc.Idle? && s'.failed == s.failed
            && s'.disk.files == (if plan.src == plan.dst then s.disk.files else s.disk.files - {plan.src})
            && s'.hashes == s.hashes[plan.dst := DigestOf(plan.merged)]
            && plan.dst in Filenames(s'.log) && s.log <= s'.log
  {
    var logged := MicroStep(s);
    var hashed := MicroStep(logged);
    assert RunHandler(s) == RunHandler(logged) && RunHandler(logged) == RunHandler(hashed);
    if hashed.pc.Busy? {
      assert RunHandler(hashed) == RunHandler(MicroStep(hashed));
    }
  }

  lemma {:induction false} RewriteWorks(s: Sys, plan: Plan)
    requires s.pc == Busy(Writing, plan) && Workable(s, plan)
    ensures var s' := RunHandler(s);
            && s'.pc.Idle? && s'.failed == s.failed
            && s'.disk.files == (s.disk.files - {Temp(plan.dst), plan.src})[plan.dst := plan.merged]
            && s'.hashes == s.hashes[plan.dst := DigestOf(plan.merged)]
            && plan.dst in Filenames(s'.log) && s.log <= s'.log
  {
    var renamed := WrittenAndRenamed(s, plan);
    LoggedAndHashed(renamed, plan);
  }

  /** The name a configuration has afterwards. */
  function ListName(p: Path): Path {
    if HasSuffix(p.base, ".conf") then Path(p.dir, p.base + "list") else p
  }

  /** Any other configuration is rewritten: the `.conflist` of its name holds the injected version, the
      `.conf` is gone, the version is recorded and the file logged, and no other file has changed. */
  lemma {:induction false} ConfigurationRewritten(cfg: Config, s: Sys)
    requires s.pc.Idle? && s.disk.events != [] && Noticed(s.disk.events[0]) && ConfigurationEvent(s.disk.events[0])
    requires s.disk.events[0].path in s.disk.files && FirstSource(cfg.sources).Some?
    requires var p := s.disk.events[0].path;
             && {p, ListName(p), Temp(ListName(p))} !! s.disk.broken
             && !(p in s.hashes && s.hashes[p] == DigestOf(s.disk.files[p]))
             && InjectContent(s.disk.files[p], FirstSource(cfg.sources).value).Ok?
    ensures var p, s' := s.disk.events[0].path, HandleEvent(cfg, s);
            var merged := InjectContent(s.disk.files[p], FirstSource(cfg.sources).value).value;
            && s'.pc.Idle? && s'.failed == s.failed
            && s'.disk.files == (s.disk.files - {Temp(ListName(p)), p})[ListName(p) := merged]
            && s'.hashes == s.hashes[ListName(p) := DigestOf(merged)]
            && ListName(p) in Filenames(s'.log) && s.log <= s'.log
  {
    var e := s.disk.events[0];
    AppliesToNoticed(e);
    FilesByName(e.path.dir, e.path.base);
    PathFacts(e.path);
    PathFacts(ListName(e.path));
    var begun := DispatchNext(cfg, s);
    RewriteWorks(begun, begun.pc.plan);
  }

  lemma {:induction false} RewriteFails(s: Sys, plan: Plan)
    requires s.pc == Busy(Writing, plan) && !({plan.dst, Temp(plan.dst)} !! s.disk.broken)
    ensures var s', temp := RunHandler(s), Temp(plan.dst);
            && s'.pc.Idle? && s'.failed && s'.hashes == s.hashes && s'.log == s.log
            && s'.disk.files - {temp} == s.disk.files - {temp}
  {
    var written := MicroStep(s);
    assert RunHandler(s) == RunHandler(written);
    if written.pc.Busy? {
      assert RunHandler(written) == RunHandler(MicroStep(written));
    }
  }

  /** A rewrite that cannot write its temporary file, or cannot rename it, is reported; nothing is recorded or
      logged, and no file but the temporary one has changed. */
  lemma {:induction false} FailedRewriteChangesNothing(cfg: Config, s: Sys)
    requires s.pc.Idle? && s.disk.events != [] && Noticed(s.disk.events[0]) && ConfigurationEvent(s.disk.events[0])
    requires s.disk.events[0].path in s.disk.files && FirstSource(cfg.sources).Some?
    requires var p := s.disk.events[0].path;
             && p !in s.disk.broken && !({ListName(p), Temp(ListName(p))} !! s.disk.broken)
             && !(p in s.hashes && s.hashes[p] == DigestOf(s.disk.files[p]))
             && InjectContent(s.disk.files[p], FirstSource(cfg.sources).value).Ok?
    ensures var s', temp := HandleEvent(cfg, s), Temp(ListName(s.disk.events[0].path));
            && s'.pc.Idle? && s'.failed && s'.hashes == s.hashes && s'.log == s.log
            && s'.disk.files - {temp} == s.disk.files - {temp}
  {
    var e := s.disk.events[0];
    AppliesToNoticed(e);
    FilesByName(e.path.dir, e.path.base);
    var begun := DispatchNext(cfg, s);
    RewriteFails(begun, begun.pc.plan);
  }
}

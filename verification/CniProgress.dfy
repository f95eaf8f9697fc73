/** From any point of any run of the installer, the event loop comes to rest, and there holds what the
    results about quiescence say (internal/cni/watch_fs.go). */
module CniProgress {
  import opened Text
  import opened CniConfig
  import opened CniPaths
  import opened CniInvariant
  import opened CniMachine
  import opened CniProvenance
  import opened CniRecovery
  import opened CniRemoval
  import opened CniTermination

  // ---- Every reachable state is one the loop can go on from ------------------------------

  lemma {:induction false} StepReady(cfg: Config, linkerd: Json, s: Sys, step: Step)
    requires ConfigOk(cfg, linkerd) && Enabled(cfg, s, step) && Inv(linkerd, s) && Ready(s)
    ensures Ready(Apply(cfg, s, step))
  {
    StepInv(cfg, linkerd, s, step);
    match step {
      case Dispatch => DispatchLess(cfg, s);
      case Micro => MicroReady(s);
      case _ =>
    }
  }

  lemma {:induction false} RunReady(cfg: Config, linkerd: Json, states: seq<Sys>, steps: seq<Step>, k: nat)
    requires ConfigOk(cfg, linkerd) && IsRun(cfg, states, steps) && k < |states|
    ensures Ready(states[k])
  {
    if k > 0 {
      RunReady(cfg, linkerd, states, steps, k - 1);
      RunInv(cfg, linkerd, states, steps, k - 1);
      assert StepsAt(cfg, states, steps, k - 1);
      StepReady(cfg, linkerd, states[k - 1], steps[k - 1]);
    }
  }

  // ---- Draining is a run -----------------------------------------------------------------

  lemma {:induction false} StepsAtKept(cfg: Config, states: seq<Sys>, steps: seq<Step>, s: Sys, step: Step, k: nat)
    requires |states| == |steps| + 1 && k < |steps| && StepsAt(cfg, states, steps, k)
    ensures StepsAt(cfg, states + [s], steps + [step], k)
  {}

  lemma {:induction false} RunExtends(cfg: Config, states: seq<Sys>, steps: seq<Step>, step: Step)
    requires IsRun(cfg, states, steps) && Enabled(cfg, states[|steps|], step)
    ensures IsRun(cfg, states + [Apply(cfg, states[|steps|], step)], steps + [step])
  {
    var s := Apply(cfg, states[|steps|], step);
    forall k | 0 <= k < |steps + [step]| ensures StepsAt(cfg, states + [s], steps + [step], k) {
      if k < |steps| {
        assert StepsAt(cfg, states, steps, k);
        StepsAtKept(cfg, states, steps, s, step, k);
      }
    }
  }

  /** Only the process moves from the `i`-th step on. */
  ghost predicate OnlyLoop(steps: seq<Step>, i: nat) {
    forall k :: i <= k < |steps| ==> steps[k].Dispatch? || steps[k].Micro?
  }

  /** From the last state of any run the loop's own steps lead to where it comes to rest. */
  lemma {:induction false} DrainIsRun(cfg: Config, linkerd: Json, states: seq<Sys>, steps: seq<Step>)
    returns (states': seq<Sys>, steps': seq<Step>)
    requires ConfigOk(cfg, linkerd) && IsRun(cfg, states, steps)
    requires Ready(states[|steps|]) && !states[|steps|].pc.Down?
    ensures IsRun(cfg, states', steps') && states <= states' && steps <= steps' && OnlyLoop(steps', |steps|)
    ensures states'[|steps'|] == Drain(cfg, states[|steps|])
    decreases Measure(states[|steps|]).0, Measure(states[|steps|]).1, Measure(states[|steps|]).2,
              Measure(states[|steps|]).3, Measure(states[|steps|]).4, Measure(states[|steps|]).5
  {
    var s := states[|steps|];
    if s.pc.Idle? && s.disk.events == [] {
      states', steps' := states, steps;
    } else {
      var step := if s.pc.Busy? then Micro else Dispatch;
      LoopStepLess(cfg, s);
      RunExtends(cfg, states, steps, step);
      assert Apply(cfg, s, step) == LoopStep(cfg, s);
      states', steps' := DrainIsRun(cfg, linkerd, states + [LoopStep(cfg, s)], steps + [step]);
      assert steps'[|steps|] == step;
    }
  }

  // ---- What is held at rest --------------------------------------------------------------

  /** The last state of a run that can drain without an error. */
  ghost predicate Unhindered(states: seq<Sys>, steps: seq<Step>)
    requires |states| == |steps| + 1
  {
    && (forall step <- steps :: SoundStep(step)) && AllSound(states[0].disk.files)
    && !states[|steps|].pc.Down? && !states[|steps|].failed && states[|steps|].disk.broken == {}
  }

  lemma {:induction false} DrainedQuiescent(cfg: Config, linkerd: Json, states: seq<Sys>, steps: seq<Step>)
    requires ConfigOk(cfg, linkerd) && IsRun(cfg, states, steps) && Unhindered(states, steps)
    ensures Ready(states[|steps|]) && Quiescent(Drain(cfg, states[|steps|]))
  {
    var n := |steps|;
    RunReady(cfg, linkerd, states, steps, n);
    RunInv(cfg, linkerd, states, steps, n);
    RunKeepsSound(cfg, linkerd, states, steps, n);
    DrainSound(cfg, linkerd, states[n]);
  }

  lemma {:induction false} StillAlone(steps: seq<Step>, steps': seq<Step>, i: nat, p: Path)
    requires i <= |steps| && LeftAlone(steps, i, |steps|, p) && steps <= steps' && OnlyLoop(steps', |steps|)
    ensures LeftAlone(steps', i, |steps'|, p)
  {
    forall k | i <= k < |steps'| ensures !TouchesPair(steps'[k], p) {
      if k < |steps| { assert steps'[k] == steps[k]; }
    }
  }

  /** The last external version is reached: from any point of any run with sound external versions, if
      nothing fails any more and an external write has been left alone, the loop comes to rest without
      an error, and there the `.conflist` of that name is the surviving version with linkerd last. */
  lemma {:induction false} LastExternalVersionIsReached(
    cfg: Config, linkerd: Json, states: seq<Sys>, steps: seq<Step>, i: nat, p: Path, c: Content)
    requires ConfigOk(cfg, linkerd) && IsRun(cfg, states, steps) && Unhindered(states, steps) && i < |steps|
    requires steps[i] == ExternalWrite(p, c) && Watched(p) && LeftAlone(steps, i + 1, |steps|, p)
    ensures Ready(states[|steps|])
    ensures var r := Drain(cfg, states[|steps|]);
            && Quiescent(r) && Destination(p) in r.disk.files
            && SettledContent(r.disk.files[Destination(p)], linkerd, Survivor(states[i], p, c))
  {
    DrainedQuiescent(cfg, linkerd, states, steps);
    var states', steps' := DrainIsRun(cfg, linkerd, states, steps);
    StillAlone(steps, steps', i + 1, p);
    assert steps'[i] == steps[i] && states'[i] == states[i];
    LastExternalVersionWins(cfg, linkerd, states', steps', i, |steps'|, p, c);
  }

  // ---- A run that loses a write ----------------------------------------------------------

  /** While the process is down, the `.conflist` of a waiting `.conf` is written; then it starts. */
  ghost function LosingStates(cfg: Config, conf: Path, a: Content, b: Content): (states: seq<Sys>)
    ensures |states| == 3
  {
    var s0 := Initial(map[conf := a], {});
    var s1 := Apply(cfg, s0, ExternalWrite(Destination(conf), b));
    [s0, s1, Apply(cfg, s1, Boot([conf, Destination(conf)]))]
  }

  function LosingSteps(conf: Path, b: Content): (steps: seq<Step>)
    ensures |steps| == 2
  {
    [ExternalWrite(Destination(conf), b), Boot([conf, Destination(conf)])]
  }

  lemma {:induction false} LosingStart(cfg: Config, linkerd: Json, conf: Path, a: Content, b: Content)
    requires ConfigOk(cfg, linkerd) && Watched(conf) && KindOf(conf).Conf? && SoundContent(a) && SoundContent(b)
    ensures IsRun(cfg, LosingStates(cfg, conf, a, b), LosingSteps(conf, b))
    ensures Unhindered(LosingStates(cfg, conf, a, b), LosingSteps(conf, b))
  {
    var states, steps := LosingStates(cfg, conf, a, b), LosingSteps(conf, b);
    assert states[1].disk.files.Keys == {conf, Destination(conf)};
    assert StepsAt(cfg, states, steps, 0) && StepsAt(cfg, states, steps, 1);
    forall k | 0 <= k < |steps| ensures StepsAt(cfg, states, steps, k) {
      assert k == 0 || k == 1;
    }
  }

  /** A write is lost: for any two sound versions that differ in more than linkerd, there is a run in
      which one is written to the `.conflist` while the other waits in the `.conf`, the pair is left
      alone, and at quiescence the `.conflist` is not what was written. */
  lemma {:induction false} WriteCanBeLost(cfg: Config, linkerd: Json, conf: Path, a: Content, b: Content)
    returns (states: seq<Sys>, steps: seq<Step>)
    requires ConfigOk(cfg, linkerd) && Watched(conf) && KindOf(conf).Conf?
    requires SoundContent(a) && SoundContent(b) && !SameButLinkerd(a, b)
    ensures IsRun(cfg, states, steps) && |steps| > 0 && Quiescent(states[|steps|])
    ensures steps[0] == ExternalWrite(Destination(conf), b) && LeftAlone(steps, 1, |steps|, Destination(conf))
    ensures Destination(conf) in states[|steps|].disk.files
    ensures !SettledContent(states[|steps|].disk.files[Destination(conf)], linkerd, b)
  {
    var list, states0, steps0 := Destination(conf), LosingStates(cfg, conf, a, b), LosingSteps(conf, b);
    PathFacts(conf);
    PathFacts(list);
    LosingStart(cfg, linkerd, conf, a, b);
    DrainedQuiescent(cfg, linkerd, states0, steps0);
    states, steps := DrainIsRun(cfg, linkerd, states0, steps0);
    StillAlone(steps0, steps, 1, list);
    assert steps[0] == steps0[0] && states[0] == states0[0];
    assert ConfWaits(states[0], list);
    WriteSurvivesExactly(cfg, linkerd, states, steps, 0, |steps|, list, b);
  }

  function ListOf(plugins: seq<Json>): Json { JObject(map[KEY_PLUGINS := JArray(plugins)]) }

  lemma {:induction false} ListIsSound(plugins: seq<Json>)
    requires AllObjects(plugins) && LinkerdCount(plugins) == 0
    ensures !IsSingle(ListOf(plugins)) && PluginsOf(ListOf(plugins)) == Some(plugins)
    ensures SoundContent(Printed(ListOf(plugins)))
  {
    KeysByName();
  }

  /** There are such versions: no plugin, and one without a type. */
  lemma {:induction false} SuchVersions()
    ensures var a, b := Printed(ListOf([])), Printed(ListOf([JObject(map[])]));
            SoundContent(a) && SoundContent(b) && !SameButLinkerd(a, b)
  {
    var plugin := JObject(map[]);
    OthersOfOne(plugin);
    assert Others([]) == [] && LinkerdCount([]) == 0;
    ListIsSound([]);
    ListIsSound([plugin]);
  }
}

/** cni-repair-controller/src/lib.rs: a producer that turns pod events into deletion requests and a
    consumer that deletes the pods, over a bounded queue that drops what does not fit. */
module Repair {
  import opened Text

  const UNSUCCESSFUL_EXIT_CODE: int := 95
  const EVENT_CHANNEL_CAPACITY: nat := 32

  // ---- Pod events ------------------------------------------------------------------------

  datatype ObjectReference = ObjectReference(namespace: string, name: string)

  /** `terminated` is the exit code of the container's last termination. */
  datatype ContainerState = ContainerState(terminated: Option<int>)

  datatype ContainerStatus = ContainerStatus(name: string, lastState: Option<ContainerState>)

  datatype PodStatus = PodStatus(initContainerStatuses: Option<seq<ContainerStatus>>)

  datatype Pod = Pod(reference: ObjectReference, status: Option<PodStatus>, deleting: bool)

  datatype WatchEvent = Applied(pod: Pod) | OtherEvent

  /** The first init container with the validator's name. */
  function FindValidator(statuses: seq<ContainerStatus>): Option<ContainerStatus> {
    if statuses == [] then None
    else if statuses[0].name == "linkerd-network-validator" then Some(statuses[0])
    else FindValidator(statuses[1..])
  }

  function ValidatorExit(status: PodStatus): Option<int> {
    var statuses := if status.initContainerStatuses.Some? then status.initContainerStatuses.value else [];
    match FindValidator(statuses)
    case None => None
    case Some(validator) =>
      match validator.lastState
      case None => None
      case Some(state) => state.terminated
  }

  /** The pod's validator last exited with 95 and the pod is not being deleted. */
  predicate Qualifies(evt: WatchEvent) {
    && evt.Applied? && evt.pod.status.Some?
    && ValidatorExit(evt.pod.status.value) == Some(UNSUCCESSFUL_EXIT_CODE)
    && !evt.pod.deleting
  }

  /** Only the first container with the validator's name counts. */
  lemma {:induction false} QualifiesByFirstValidator(evt: WatchEvent)
    ensures Qualifies(evt) <==>
            && evt.Applied? && evt.pod.status.Some? && !evt.pod.deleting
            && evt.pod.status.value.initContainerStatuses.Some?
            && var statuses := evt.pod.status.value.initContainerStatuses.value;
               exists k :: 0 <= k < |statuses| && statuses[k].name == "linkerd-network-validator"
                 && (forall j :: 0 <= j < k ==> statuses[j].name != "linkerd-network-validator")
                 && statuses[k].lastState == Some(ContainerState(Some(95)))
  {
    if evt.Applied? && evt.pod.status.Some? && evt.pod.status.value.initContainerStatuses.Some? {
      FindValidatorMeaning(evt.pod.status.value.initContainerStatuses.value);
    }
  }

  lemma {:induction false} FindValidatorMeaning(statuses: seq<ContainerStatus>)
    ensures FindValidator(statuses).None? ==>
              forall k :: 0 <= k < |statuses| ==> statuses[k].name != "linkerd-network-validator"
    ensures FindValidator(statuses).Some? ==>
              exists k :: 0 <= k < |statuses| && statuses[k] == FindValidator(statuses).value
                && statuses[k].name == "linkerd-network-validator"
                && forall j :: 0 <= j < k ==> statuses[j].name != "linkerd-network-validator"
  {
    if statuses != [] && statuses[0].name != "linkerd-network-validator" {
      var rest := statuses[1..];
      FindValidatorMeaning(rest);
      if FindValidator(rest).Some? {
        var k :| 0 <= k < |rest| && rest[k] == FindValidator(rest).value
                 && rest[k].name == "linkerd-network-validator"
                 && forall j :: 0 <= j < k ==> rest[j].name != "linkerd-network-validator";
        assert statuses[k + 1] == rest[k];
        assert forall j :: 0 <= j < k + 1 ==> j == 0 || statuses[j] == rest[j - 1];
      }
    }
  }

  // ---- The state -------------------------------------------------------------------------

  /** The exported counters, 64 bits wide; the two latency histograms by their counts. */
  datatype Metrics = Metrics(
    queueOverflow: nat, podsDeleted: nat, deleteLatencyCount: nat, deleteErrors: nat, deleteTimeouts: nat,
    publishLatencyCount: nat, publishErrors: nat, publishTimeouts: nat)

  function Inc(counter: nat): nat { (counter + 1) % TWO_64 }

  /** What the consumer is doing. */
  datatype Phase = Waiting | Deleting(reference: ObjectReference) | Publishing(reference: ObjectReference) | Finished

  /** How an API call within its one-second limit ends. */
  datatype CallResult = Succeeded | Failed | TimedOut

  /** True counts, for the accounting only. */
  datatype Tally = Tally(
    overflows: nat, rejected: nat, deleted: nat, deleteErrors: nat, deleteTimeouts: nat,
    published: nat, publishErrors: nat, publishTimeouts: nat)

  /** `qualifying` and `attempts` record the references of qualifying events and of deletion attempts,
      in order; `watching` is false once the producer has returned, `open` once the consumer's end
      of the queue is dropped. */
  datatype State = State(
    queue: seq<ObjectReference>, phase: Phase, metrics: Metrics, watching: bool, open: bool,
    qualifying: seq<ObjectReference>, attempts: seq<ObjectReference>, tally: Tally)

  const START: State :=
    State([], Waiting, Metrics(0, 0, 0, 0, 0, 0, 0, 0), true, true, [], [], Tally(0, 0, 0, 0, 0, 0, 0, 0))

  datatype Step =
    | Observe(evt: WatchEvent)
    | StreamEnds
    | Receive
    | DeleteEnds(result: CallResult)
    | PublishEnds(result: CallResult)
    | ConsumerEnds
    | ConsumerDropped

  predicate Enabled(s: State, step: Step) {
    match step
    case Observe(_) => s.watching
    case StreamEnds => s.watching
    case Receive => s.open && s.phase.Waiting? && s.queue != []
    case DeleteEnds(_) => s.open && s.phase.Deleting?
    case PublishEnds(_) => s.open && s.phase.Publishing?
    case ConsumerEnds => s.open && s.phase.Waiting? && s.queue == [] && !s.watching
    case ConsumerDropped => s.open
  }

  /** One round of process_events. */
  function ObserveEvent(s: State, evt: WatchEvent): State {
    if !Qualifies(evt) then s
    else
      var s' := s.(qualifying := s.qualifying + [evt.pod.reference]);
      if !s.open then s'.(watching := false, tally := s.tally.(rejected := s.tally.rejected + 1))
      else if |s.queue| == EVENT_CHANNEL_CAPACITY then
        s'.(metrics := s.metrics.(queueOverflow := Inc(s.metrics.queueOverflow)),
            tally := s.tally.(overflows := s.tally.overflows + 1))
      else s'.(queue := s.queue + [evt.pod.reference])
  }

  function EndDelete(s: State, result: CallResult): State
    requires s.phase.Deleting?
  {
    var m, t := s.metrics, s.tally;
    match result
    case TimedOut =>
      s.(phase := Waiting, metrics := m.(deleteTimeouts := Inc(m.deleteTimeouts)),
         tally := t.(deleteTimeouts := t.deleteTimeouts + 1))
    case Failed =>
      s.(phase := Waiting, metrics := m.(deleteErrors := Inc(m.deleteErrors)),
         tally := t.(deleteErrors := t.deleteErrors + 1))
    case Succeeded =>
      s.(phase := Publishing(s.phase.reference),
         metrics := m.(podsDeleted := Inc(m.podsDeleted), deleteLatencyCount := Inc(m.deleteLatencyCount)),
         tally := t.(deleted := t.deleted + 1))
  }

  function EndPublish(s: State, result: CallResult): State
    requires s.phase.Publishing?
  {
    var m, t := s.metrics, s.tally;
    match result
    case TimedOut =>
      s.(phase := Waiting, metrics := m.(publishTimeouts := Inc(m.publishTimeouts)),
         tally := t.(publishTimeouts := t.publishTimeouts + 1))
    case Failed =>
      s.(phase := Waiting, metrics := m.(publishErrors := Inc(m.publishErrors)),
         tally := t.(publishErrors := t.publishErrors + 1))
    case Succeeded =>
      s.(phase := Waiting, metrics := m.(publishLatencyCount := Inc(m.publishLatencyCount)),
         tally := t.(published := t.published + 1))
  }

  function ReceiveNext(s: State): State
    requires s.queue != []
  {
    s.(queue := s.queue[1..], phase := Deleting(s.queue[0]), attempts := s.attempts + [s.queue[0]])
  }

  function Next(s: State, step: Step): State
    requires Enabled(s, step)
  {
    match step
    case Observe(evt) => ObserveEvent(s, evt)
    case StreamEnds => s.(watching := false)
    case Receive => ReceiveNext(s)
    case DeleteEnds(result) => EndDelete(s, result)
    case PublishEnds(result) => EndPublish(s, result)
    case ConsumerEnds => s.(phase := Finished, open := false)
    case ConsumerDropped => s.(open := false)
  }

  ghost predicate IsRun(states: seq<State>, steps: seq<Step>) {
    && |states| == |steps| + 1 && states[0] == START
    && forall k :: 0 <= k < |steps| ==> StepsAt(states, steps, k)
  }

  ghost predicate StepsAt(states: seq<State>, steps: seq<Step>, k: nat)
    requires k < |steps| && |states| == |steps| + 1
  {
    Enabled(states[k], steps[k]) && states[k + 1] == Next(states[k], steps[k])
  }

  // ---- Accounting ------------------------------------------------------------------------

  /** `a` is `b` with some elements left out. */
  predicate Subsequence(a: seq<ObjectReference>, b: seq<ObjectReference>) {
    if a == [] then true
    else if b == [] then false
    else
      || (a[|a| - 1] == b[|b| - 1] && Subsequence(a[..|a| - 1], b[..|b| - 1]))
      || Subsequence(a, b[..|b| - 1])
  }

  lemma {:induction false} SubsequenceGrows(a: seq<ObjectReference>, b: seq<ObjectReference>, x: ObjectReference)
    requires Subsequence(a, b)
    ensures Subsequence(a + [x], b + [x]) && Subsequence(a, b + [x])
  {}

  lemma {:induction false} SubsequencePrefix(a: seq<ObjectReference>, b: seq<ObjectReference>, n: nat)
    requires Subsequence(a, b) && n <= |a|
    ensures Subsequence(a[..n], b)
    decreases |b|
  {
    if n < |a| {
      var a', b' := a[..|a| - 1], b[..|b| - 1];
      assert a'[..n] == a[..n];
      if a[|a| - 1] == b[|b| - 1] && Subsequence(a', b') {
        SubsequencePrefix(a', b', n);
      } else {
        SubsequencePrefix(a, b', n);
      }
    } else {
      assert a[..n] == a;
    }
  }

  function InFlight(b: bool): nat { if b then 1 else 0 }

  /** The exported counters are the true counts, modulo their width. */
  predicate CountersExact(m: Metrics, t: Tally) {
    && m.queueOverflow == t.overflows % TWO_64
    && m.podsDeleted == t.deleted % TWO_64 && m.deleteLatencyCount == t.deleted % TWO_64
    && m.deleteErrors == t.deleteErrors % TWO_64 && m.deleteTimeouts == t.deleteTimeouts % TWO_64
    && m.publishLatencyCount == t.published % TWO_64
    && m.publishErrors == t.publishErrors % TWO_64 && m.publishTimeouts == t.publishTimeouts % TWO_64
  }

  /** Every qualifying event overflowed, is queued, was received, or hit the closed queue, which
      ends the producer; every received one has its outcome or is the one in flight; so has every
      deleted one. */
  predicate CountsBalanced(s: State) {
    && |s.qualifying| == s.tally.overflows + |s.queue| + |s.attempts| + s.tally.rejected
    && |s.attempts| == s.tally.deleted + s.tally.deleteErrors + s.tally.deleteTimeouts + InFlight(s.phase.Deleting?)
    && s.tally.deleted ==
       s.tally.published + s.tally.publishErrors + s.tally.publishTimeouts + InFlight(s.phase.Publishing?)
    && s.tally.rejected <= 1 && (s.tally.rejected == 1 ==> !s.open && !s.watching)
    && |s.queue| <= EVENT_CHANNEL_CAPACITY
  }

  /** The counts balance, the exported counters are exact, and what is attempted and then queued is
      what was accepted, in order. */
  predicate Balanced(s: State) {
    && CountsBalanced(s)
    && Subsequence(s.attempts + s.queue, s.qualifying)
    && CountersExact(s.metrics, s.tally)
  }

  lemma {:induction false} IncExact(count: nat)
    ensures Inc(count % TWO_64) == (count + 1) % TWO_64
  {}

  lemma {:induction false} ObserveOrdered(s: State, evt: WatchEvent)
    requires Subsequence(s.attempts + s.queue, s.qualifying)
    ensures var s' := ObserveEvent(s, evt); Subsequence(s'.attempts + s'.queue, s'.qualifying)
  {
    if Qualifies(evt) {
      var r := evt.pod.reference;
      SubsequenceGrows(s.attempts + s.queue, s.qualifying, r);
      assert s.attempts + (s.queue + [r]) == s.attempts + s.queue + [r];
    }
  }

  lemma {:induction false} ObserveCounts(s: State, evt: WatchEvent)
    requires CountsBalanced(s) && s.watching
    ensures CountsBalanced(ObserveEvent(s, evt))
  {}

  lemma {:induction false} ObserveExact(s: State, evt: WatchEvent)
    requires CountersExact(s.metrics, s.tally)
    ensures CountersExact(ObserveEvent(s, evt).metrics, ObserveEvent(s, evt).tally)
  {
    IncExact(s.tally.overflows);
  }

  lemma {:induction false} ObserveBalanced(s: State, evt: WatchEvent)
    requires Balanced(s) && s.watching
    ensures Balanced(ObserveEvent(s, evt))
  {
    ObserveOrdered(s, evt);
    ObserveCounts(s, evt);
    ObserveExact(s, evt);
  }

  lemma {:induction false} DeleteExact(s: State, result: CallResult)
    requires s.phase.Deleting? && CountersExact(s.metrics, s.tally)
    ensures CountersExact(EndDelete(s, result).metrics, EndDelete(s, result).tally)
  {
    match result {
      case Succeeded => IncExact(s.tally.deleted);
      case Failed => IncExact(s.tally.deleteErrors);
      case TimedOut => IncExact(s.tally.deleteTimeouts);
    }
  }

  lemma {:induction false} PublishExact(s: State, result: CallResult)
    requires s.phase.Publishing? && CountersExact(s.metrics, s.tally)
    ensures CountersExact(EndPublish(s, result).metrics, EndPublish(s, result).tally)
  {
    match result {
      case Succeeded => IncExact(s.tally.published);
      case Failed => IncExact(s.tally.publishErrors);
      case TimedOut => IncExact(s.tally.publishTimeouts);
    }
  }

  lemma {:induction false} DeleteBalanced(s: State, result: CallResult)
    requires Balanced(s) && s.phase.Deleting?
    ensures Balanced(EndDelete(s, result))
  {
    DeleteExact(s, result);
  }

  lemma {:induction false} PublishBalanced(s: State, result: CallResult)
    requires Balanced(s) && s.phase.Publishing?
    ensures Balanced(EndPublish(s, result))
  {
    PublishExact(s, result);
  }

  lemma {:induction false} StepBalanced(s: State, step: Step)
    requires Balanced(s) && Enabled(s, step)
    ensures Balanced(Next(s, step))
  {
    match step {
      case Observe(evt) => ObserveBalanced(s, evt);
      case DeleteEnds(result) => DeleteBalanced(s, result);
      case PublishEnds(result) => PublishBalanced(s, result);
      case Receive =>
        var s' := ReceiveNext(s);
        assert s'.attempts + s'.queue == s.attempts + s.queue;
      case _ =>
    }
  }

  /** The accounting holds in every reachable state, whatever the interleaving. */
  lemma {:induction false} AccountingHolds(states: seq<State>, steps: seq<Step>, k: nat)
    requires IsRun(states, steps) && k < |states|
    ensures Balanced(states[k])
  {
    if k > 0 {
      AccountingHolds(states, steps, k - 1);
      assert StepsAt(states, steps, k - 1);
      StepBalanced(states[k - 1], steps[k - 1]);
    } else {
      assert START.attempts + START.queue == [];
    }
  }

  /** The references of the qualifying events a run has observed. */
  function Observed(steps: seq<Step>): seq<ObjectReference> {
    if steps == [] then []
    else
      var step := steps[|steps| - 1];
      Observed(steps[..|steps| - 1])
      + (if step.Observe? && Qualifies(step.evt) then [step.evt.pod.reference] else [])
  }

  lemma {:induction false} ObservedNext(s: State, step: Step)
    requires Enabled(s, step)
    ensures Next(s, step).qualifying ==
            s.qualifying + (if step.Observe? && Qualifies(step.evt) then [step.evt.pod.reference] else [])
  {}

  lemma {:induction false} QualifyingIsObserved(states: seq<State>, steps: seq<Step>, k: nat)
    requires IsRun(states, steps) && k < |states|
    ensures states[k].qualifying == Observed(steps[..k])
  {
    if k > 0 {
      QualifyingIsObserved(states, steps, k - 1);
      assert StepsAt(states, steps, k - 1);
      assert steps[..k][..k - 1] == steps[..k - 1];
      ObservedNext(states[k - 1], steps[k - 1]);
    }
  }

  /** The deletion attempts of a run are, in order, a subsequence of its qualifying events: pods whose
      validator exited with 95 and which were not being deleted. */
  lemma {:induction false} AttemptsAreQualifying(states: seq<State>, steps: seq<Step>, k: nat)
    requires IsRun(states, steps) && k < |states|
    ensures Subsequence(states[k].attempts, Observed(steps[..k]))
  {
    AccountingHolds(states, steps, k);
    QualifyingIsObserved(states, steps, k);
    var s := states[k];
    SubsequencePrefix(s.attempts + s.queue, s.qualifying, |s.attempts|);
    assert (s.attempts + s.queue)[..|s.attempts|] == s.attempts;
  }

  // ---- By steps and by number ------------------------------------------------------------

  /** A qualifying event is queued exactly while fewer than 32 pods are, and is dropped and counted as an
      overflow exactly when 32 are; any other event changes nothing. */
  lemma {:induction false} ObserveByCapacity(s: State, evt: WatchEvent)
    ensures !Qualifies(evt) ==> ObserveEvent(s, evt) == s
    ensures Qualifies(evt) && s.open && |s.queue| < 32 ==>
              ObserveEvent(s, evt) == s.(queue := s.queue + [evt.pod.reference],
                                         qualifying := s.qualifying + [evt.pod.reference])
    ensures Qualifies(evt) && s.open && |s.queue| == 32 ==>
              && ObserveEvent(s, evt).queue == s.queue && ObserveEvent(s, evt).watching == s.watching
              && ObserveEvent(s, evt).metrics ==
                 s.metrics.(queueOverflow := (s.metrics.queueOverflow + 1) % 0x1_0000_0000_0000_0000)
              && ObserveEvent(s, evt).tally == s.tally.(overflows := s.tally.overflows + 1)
    ensures Qualifies(evt) && !s.open ==>
              && ObserveEvent(s, evt).queue == s.queue && ObserveEvent(s, evt).metrics == s.metrics
              && !ObserveEvent(s, evt).watching
  {}

  /** The step is a qualifying event that meets an open queue of 32 pods. */
  predicate MeetsFullQueue(s: State, step: Step) {
    step.Observe? && Qualifies(step.evt) && s.open && |s.queue| == 32
  }

  /** How many of the first `k` steps did. */
  ghost function Overflows(states: seq<State>, steps: seq<Step>, k: nat): nat
    requires |states| == |steps| + 1 && k <= |steps|
  {
    if k == 0 then 0
    else Overflows(states, steps, k - 1) + (if MeetsFullQueue(states[k - 1], steps[k - 1]) then 1 else 0)
  }

  /** Over every run: while the queue is open, a qualifying event is queued if and only if fewer than 32
      pods are, and the overflow counter changes if and only if 32 are. */
  lemma {:induction false} QueuedWhileRoom(states: seq<State>, steps: seq<Step>, k: nat)
    requires IsRun(states, steps) && k < |steps| && steps[k].Observe? && Qualifies(steps[k].evt) && states[k].open
    ensures states[k + 1].queue == states[k].queue + [steps[k].evt.pod.reference] <==> |states[k].queue| < 32
    ensures states[k + 1].queue == states[k].queue <==> |states[k].queue| == 32
    ensures states[k + 1].metrics.queueOverflow != states[k].metrics.queueOverflow <==> |states[k].queue| == 32
    ensures states[k + 1].tally.overflows != states[k].tally.overflows <==> |states[k].queue| == 32
  {
    AccountingHolds(states, steps, k);
    assert StepsAt(states, steps, k);
    ObserveByCapacity(states[k], steps[k].evt);
    assert |states[k].queue + [steps[k].evt.pod.reference]| == |states[k].queue| + 1;
  }

  /** How often each kind of step has been taken, and each kind of overflow met. */
  ghost predicate CountsSteps(t: Tally, steps: multiset<Step>, overflows: nat) {
    && t.overflows == overflows
    && t.deleted == steps[DeleteEnds(Succeeded)]
    && t.deleteErrors == steps[DeleteEnds(Failed)]
    && t.deleteTimeouts == steps[DeleteEnds(TimedOut)]
    && t.published == steps[PublishEnds(Succeeded)]
    && t.publishErrors == steps[PublishEnds(Failed)]
    && t.publishTimeouts == steps[PublishEnds(TimedOut)]
  }

  lemma {:induction false} OneMore(steps: multiset<Step>, step: Step)
    ensures forall x :: (steps + multiset{step})[x] == steps[x] + (if x == step then 1 else 0)
  {}

  lemma {:induction false} DeleteCounts(s: State, result: CallResult, steps: multiset<Step>, overflows: nat)
    requires s.phase.Deleting? && CountsSteps(s.tally, steps, overflows)
    ensures CountsSteps(EndDelete(s, result).tally, steps + multiset{DeleteEnds(result)}, overflows)
  {
    OneMore(steps, DeleteEnds(result));
  }

  lemma {:induction false} PublishCounts(s: State, result: CallResult, steps: multiset<Step>, overflows: nat)
    requires s.phase.Publishing? && CountsSteps(s.tally, steps, overflows)
    ensures CountsSteps(EndPublish(s, result).tally, steps + multiset{PublishEnds(result)}, overflows)
  {
    OneMore(steps, PublishEnds(result));
  }

  lemma {:induction false} StepCounts(s: State, step: Step, steps: multiset<Step>, overflows: nat)
    requires Enabled(s, step) && |s.queue| <= 32 && CountsSteps(s.tally, steps, overflows)
    ensures CountsSteps(Next(s, step).tally, steps + multiset{step},
                        overflows + (if MeetsFullQueue(s, step) then 1 else 0))
  {
    match step {
      case DeleteEnds(result) => DeleteCounts(s, result, steps, overflows);
      case PublishEnds(result) => PublishCounts(s, result, steps, overflows);
      case Observe(evt) =>
        OneMore(steps, step);
        ObserveByCapacity(s, evt);
      case _ => OneMore(steps, step);
    }
  }

  lemma {:induction false} TakenNext(steps: seq<Step>, k: nat)
    requires k < |steps|
    ensures multiset(steps[..k + 1]) == multiset(steps[..k]) + multiset{steps[k]}
  {
    assert steps[..k + 1] == steps[..k] + [steps[k]];
  }

  lemma {:induction false} TallyCountsSteps(states: seq<State>, steps: seq<Step>, k: nat)
    requires IsRun(states, steps) && k <= |steps|
    ensures CountsSteps(states[k].tally, multiset(steps[..k]), Overflows(states, steps, k))
  {
    if k > 0 {
      TallyCountsSteps(states, steps, k - 1);
      AccountingHolds(states, steps, k - 1);
      assert StepsAt(states, steps, k - 1);
      StepCounts(states[k - 1], steps[k - 1], multiset(steps[..k - 1]), Overflows(states, steps, k - 1));
      TakenNext(steps, k - 1);
    }
  }

  /** In every reachable state each exported counter is, modulo 2^64, the number of steps it counts: qualifying
      events that met a full queue, and calls that ended in each way. */
  lemma {:induction false} MetricsCountSteps(states: seq<State>, steps: seq<Step>, k: nat)
    requires IsRun(states, steps) && k <= |steps|
    ensures var m, taken := states[k].metrics, multiset(steps[..k]);
            && m.queueOverflow == Overflows(states, steps, k) % 0x1_0000_0000_0000_0000
            && m.podsDeleted == taken[DeleteEnds(Succeeded)] % 0x1_0000_0000_0000_0000
            && m.deleteLatencyCount == taken[DeleteEnds(Succeeded)] % 0x1_0000_0000_0000_0000
            && m.deleteErrors == taken[DeleteEnds(Failed)] % 0x1_0000_0000_0000_0000
            && m.deleteTimeouts == taken[DeleteEnds(TimedOut)] % 0x1_0000_0000_0000_0000
            && m.publishLatencyCount == taken[PublishEnds(Succeeded)] % 0x1_0000_0000_0000_0000
            && m.publishErrors == taken[PublishEnds(Failed)] % 0x1_0000_0000_0000_0000
            && m.publishTimeouts == taken[PublishEnds(TimedOut)] % 0x1_0000_0000_0000_0000
  {
    TallyCountsSteps(states, steps, k);
    AccountingHolds(states, steps, k);
  }

  /** What the consumer is busy with: the pod whose deletion it attempted last, which it publishes an event
      about only after a deletion that succeeded. */
  ghost predicate BusyWithLast(s: State) {
    s.phase.Deleting? || s.phase.Publishing? ==>
      s.attempts != [] && s.phase.reference == s.attempts[|s.attempts| - 1]
  }

  lemma {:induction false} BusyWithLastAttempt(states: seq<State>, steps: seq<Step>, k: nat)
    requires IsRun(states, steps) && k < |states|
    ensures BusyWithLast(states[k])
    ensures states[k].phase.Publishing? && k > 0 ==>
              steps[k - 1] == DeleteEnds(Succeeded) || states[k - 1].phase == states[k].phase
  {
    if k > 0 {
      BusyWithLastAttempt(states, steps, k - 1);
      assert StepsAt(states, steps, k - 1);
    }
  }

  // ---- The two loops ---------------------------------------------------------------------

  /** The queue and the counters both loops share. */
  class Controller {
    var queue: seq<ObjectReference>
    var phase: Phase
    var metrics: Metrics
    var watching: bool
    var open: bool
    ghost var qualifying: seq<ObjectReference>
    ghost var attempts: seq<ObjectReference>
    ghost var tally: Tally

    ghost function Current(): State
      reads this
    {
      State(queue, phase, metrics, watching, open, qualifying, attempts, tally)
    }

    constructor ()
      ensures Current() == START
    {
      queue, phase, watching, open := [], Waiting, true, true;
      metrics := Metrics(0, 0, 0, 0, 0, 0, 0, 0);
      qualifying, attempts, tally := [], [], Tally(0, 0, 0, 0, 0, 0, 0, 0);
    }

    /** One event in process_events. */
    method ProcessEvent(evt: WatchEvent)
      requires |queue| <= EVENT_CHANNEL_CAPACITY
      modifies this
      ensures Current() == ObserveEvent(old(Current()), evt)
      ensures old(Qualifies(evt) && open && |queue| < 32) ==>
                queue == old(queue) + [evt.pod.reference] && metrics == old(metrics)
      ensures old(Qualifies(evt) && open && |queue| == 32) ==>
                && queue == old(queue)
                && metrics == old(metrics).(queueOverflow := (old(metrics).queueOverflow + 1) % TWO_64)
    {
      if !evt.Applied? || evt.pod.status.None? {
        return;
      }
      var terminated := ValidatorExit(evt.pod.status.value) == Some(UNSUCCESSFUL_EXIT_CODE);
      if terminated && !evt.pod.deleting {
        qualifying := qualifying + [evt.pod.reference];
        if !open {
          watching := false;
          tally := tally.(rejected := tally.rejected + 1);
        } else if |queue| < EVENT_CHANNEL_CAPACITY {
          queue := queue + [evt.pod.reference];
        } else {
          metrics := metrics.(queueOverflow := Inc(metrics.queueOverflow));
          tally := tally.(overflows := tally.overflows + 1);
        }
      }
    }

    /** process_events on a stretch of the stream during which the consumer does not run. */
    method ProcessEvents(events: seq<WatchEvent>)
      requires Balanced(Current()) && watching
      modifies this
      ensures Balanced(Current())
      ensures Current() == ObserveAll(old(Current()), events)
    {
      var i := 0;
      while i < |events| && watching
        invariant 0 <= i <= |events| && Balanced(Current())
        invariant ObserveAll(old(Current()), events) == ObserveAll(Current(), events[i..])
      {
        ObserveBalanced(Current(), events[i]);
        assert events[i..][1..] == events[i + 1..];
        ProcessEvent(events[i]);
        i := i + 1;
      }
    }

    /** rx.recv: the next reference, whose pod is deleted next. */
    method ReceivePod()
      requires queue != []
      modifies this`queue, this`phase, this`attempts
      ensures Current() == ReceiveNext(old(Current()))
    {
      var objectRef := queue[0];
      queue := queue[1..];
      phase := Deleting(objectRef);
      attempts := attempts + [objectRef];
    }

    /** The deletion call ends, or its second is over. */
    method FinishDelete(result: CallResult)
      requires phase.Deleting?
      modifies this`phase, this`metrics, this`tally
      ensures Current() == EndDelete(old(Current()), result)
    {
      if result.TimedOut? {
        metrics := metrics.(deleteTimeouts := Inc(metrics.deleteTimeouts));
        tally := tally.(deleteTimeouts := tally.deleteTimeouts + 1);
        phase := Waiting;
        return;
      }
      if result.Failed? {
        metrics := metrics.(deleteErrors := Inc(metrics.deleteErrors));
        tally := tally.(deleteErrors := tally.deleteErrors + 1);
        phase := Waiting;
        return;
      }
      metrics := metrics.(podsDeleted := Inc(metrics.podsDeleted));
      metrics := metrics.(deleteLatencyCount := Inc(metrics.deleteLatencyCount));
      tally := tally.(deleted := tally.deleted + 1);
      phase := Publishing(phase.reference);
    }

    /** The publication of the Kubernetes event ends, or its second is over. */
    method FinishPublish(result: CallResult)
      requires phase.Publishing?
      modifies this`phase, this`metrics, this`tally
      ensures Current() == EndPublish(old(Current()), result)
    {
      phase := Waiting;
      if result.TimedOut? {
        metrics := metrics.(publishTimeouts := Inc(metrics.publishTimeouts));
        tally := tally.(publishTimeouts := tally.publishTimeouts + 1);
        return;
      }
      if result.Failed? {
        metrics := metrics.(publishErrors := Inc(metrics.publishErrors));
        tally := tally.(publishErrors := tally.publishErrors + 1);
        return;
      }
      metrics := metrics.(publishLatencyCount := Inc(metrics.publishLatencyCount));
      tally := tally.(published := tally.published + 1);
    }

    /** process_pods on the pods queued now, with the results its calls meet. */
    method ProcessPods(results: seq<(CallResult, CallResult)>)
      requires |results| == |queue|
      modifies this`queue, this`phase, this`attempts, this`metrics, this`tally
      ensures Current() == RepairAll(old(Current()), results)
      ensures old(Balanced(Current()) && open && phase.Waiting?) ==> Balanced(Current())
    {
      if Balanced(Current()) && open && phase.Waiting? {
        RepairAllBalanced(Current(), results);
      }
      var i := 0;
      while i < |results|
        invariant 0 <= i <= |results| && |queue| == |results| - i
        invariant RepairAll(old(Current()), results) == RepairAll(Current(), results[i..])
      {
        assert results[i..][0] == results[i] && results[i..][1..] == results[i + 1..];
        ReceivePod();
        FinishDelete(results[i].0);
        if phase.Publishing? {
          FinishPublish(results[i].1);
        }
        i := i + 1;
      }
    }
  }

  /** process_events until it returns or the stretch ends. */
  function ObserveAll(s: State, events: seq<WatchEvent>): State
    decreases |events|
  {
    if events == [] || !s.watching then s else ObserveAll(ObserveEvent(s, events[0]), events[1..])
  }

  /** A whole round of process_pods, by the machine's steps. */
  function Repaired(s: State, deletion: CallResult, publication: CallResult): State
    requires s.queue != []
  {
    var s' := EndDelete(ReceiveNext(s), deletion);
    if s'.phase.Publishing? then EndPublish(s', publication) else s'
  }

  lemma {:induction false} RepairedBalanced(s: State, deletion: CallResult, publication: CallResult)
    requires Balanced(s) && s.open && s.phase.Waiting? && s.queue != []
    ensures Balanced(Repaired(s, deletion, publication))
  {
    StepBalanced(s, Receive);
    var received := ReceiveNext(s);
    StepBalanced(received, DeleteEnds(deletion));
    var ended := EndDelete(received, deletion);
    if ended.phase.Publishing? {
      StepBalanced(ended, PublishEnds(publication));
    }
  }

  function RepairAll(s: State, results: seq<(CallResult, CallResult)>): State
    requires |results| == |s.queue|
    decreases |results|
  {
    if results == [] then s else RepairAll(Repaired(s, results[0].0, results[0].1), results[1..])
  }

  /** The rounds whose deletion succeeds. */
  function Succeeding(results: seq<(CallResult, CallResult)>): nat {
    if results == [] then 0 else (if results[0].0.Succeeded? then 1 else 0) + Succeeding(results[1..])
  }

  lemma {:induction false} RepairAllBalanced(s: State, results: seq<(CallResult, CallResult)>)
    requires Balanced(s) && s.open && s.phase.Waiting? && |results| == |s.queue|
    ensures Balanced(RepairAll(s, results))
    decreases |results|
  {
    if results != [] {
      RepairedBalanced(s, results[0].0, results[0].1);
      RepairAllBalanced(Repaired(s, results[0].0, results[0].1), results[1..]);
    }
  }

  /** A consumer left alone attempts every queued pod once, in order, and counts each attempt under
      exactly one outcome. */
  lemma {:induction false} RepairAllMeaning(s: State, results: seq<(CallResult, CallResult)>)
    requires s.phase.Waiting? && |results| == |s.queue|
    ensures var r := RepairAll(s, results);
            && r.queue == [] && r.phase.Waiting? && r.attempts == s.attempts + s.queue
            && r.tally.deleted == s.tally.deleted + Succeeding(results)
            && r.tally.deleteErrors + r.tally.deleteTimeouts ==
               s.tally.deleteErrors + s.tally.deleteTimeouts + |results| - Succeeding(results)
    decreases |results|
  {
    if results != [] {
      var s' := Repaired(s, results[0].0, results[0].1);
      RepairedMeaning(s, results[0].0, results[0].1);
      RepairAllMeaning(s', results[1..]);
      assert RepairAll(s, results) == RepairAll(s', results[1..]);
    }
  }

  lemma {:induction false} RepairedMeaning(s: State, deletion: CallResult, publication: CallResult)
    requires s.queue != []
    ensures var r := Repaired(s, deletion, publication);
            && |r.queue| == |s.queue| - 1 && r.phase.Waiting? && r.attempts + r.queue == s.attempts + s.queue
            && r.tally.deleted == s.tally.deleted + (if deletion.Succeeded? then 1 else 0)
            && r.tally.deleteErrors + r.tally.deleteTimeouts ==
               s.tally.deleteErrors + s.tally.deleteTimeouts + (if deletion.Succeeded? then 0 else 1)
  {}
}

/** From the ip_changed events of the account to the events of a provider: no change is ever named twice. */
module Causes {
  import opened Options
  import opened TraefikProvider
  import opened Publication
  import C = Coordinator

  ghost function Named(stream: seq<Event>): multiset<ChangeId> {
    if stream == [] then multiset{} else Named(stream[..|stream| - 1]) + multiset(Names(stream[|stream| - 1]))
  }

  ghost function SumFrom(causes: Job -> multiset<ChangeId>, queue: seq<Job>, i: nat): multiset<ChangeId>
    requires i <= |queue|
    decreases |queue| - i
  {
    if i == |queue| then multiset{} else causes(queue[i]) + SumFrom(causes, queue, i + 1)
  }

  function JobCauses(job: Job): multiset<ChangeId> {
    multiset(C.Causes(job.call))
  }

  ghost function Queued(queue: seq<Job>): multiset<ChangeId> {
    SumFrom(JobCauses, queue, 0)
  }

  /** What the provider's events name, what its publish calls carry, and what is pending, all comes from
      what was accepted; nothing is counted in two places. */
  ghost predicate Conserved(s: System) {
    && C.Inv(s.coordinator)
    && Named(s.stream) + Queued(s.queue) + multiset(C.Waiting(s.coordinator.entry)) <= multiset(s.coordinator.accepted)
  }

  lemma {:induction false} NamedAppend(stream: seq<Event>, e: Event)
    ensures Named(stream + [e]) == Named(stream) + multiset(Names(e))
  {
    assert (stream + [e])[..|stream|] == stream;
  }

  lemma {:induction false} SumAppend(causes: Job -> multiset<ChangeId>, queue: seq<Job>, job: Job, i: nat)
    requires i <= |queue|
    ensures SumFrom(causes, queue + [job], i) == SumFrom(causes, queue, i) + causes(job)
    decreases |queue| - i
  {
    if i == |queue| {
      assert SumFrom(causes, queue + [job], i + 1) == multiset{};
    } else {
      SumAppend(causes, queue, job, i + 1);
    }
  }

  lemma {:induction false} QueuedAppend(queue: seq<Job>, job: Job)
    ensures Queued(queue + [job]) == Queued(queue) + multiset(C.Causes(job.call))
  {
    SumAppend(JobCauses, queue, job, 0);
  }

  lemma {:induction false} SumShift(causes: Job -> multiset<ChangeId>, queue: seq<Job>, rest: seq<Job>, i: nat)
    requires |queue| == |rest| + 1 && i <= |rest| && forall k :: 0 <= k < |rest| ==> rest[k] == queue[k + 1]
    ensures SumFrom(causes, rest, i) == SumFrom(causes, queue, i + 1)
    decreases |rest| - i
  {
    if i < |rest| {
      SumShift(causes, queue, rest, i + 1);
      assert rest[i] == queue[i + 1];
    }
  }

  /** Only the calls of the jobs count. */
  lemma {:induction false} SumSame(causes: Job -> multiset<ChangeId>, queue: seq<Job>, queue': seq<Job>, i: nat)
    requires i <= |queue| == |queue'| && forall k :: i <= k < |queue| ==> causes(queue[k]) == causes(queue'[k])
    ensures SumFrom(causes, queue, i) == SumFrom(causes, queue', i)
    decreases |queue| - i
  {
    if i < |queue| {
      SumSame(causes, queue, queue', i + 1);
    }
  }

  lemma {:induction false} QueuedRest(queue: seq<Job>)
    requires queue != []
    ensures Queued(queue) == multiset(C.Causes(queue[0].call)) + Queued(queue[1..])
  {
    SumShift(JobCauses, queue, queue[1..], 0);
  }

  lemma {:induction false} QueuedPhase(queue: seq<Job>, phase: Phase)
    requires queue != []
    ensures Queued([queue[0].(phase := phase)] + queue[1..]) == Queued(queue)
  {
    SumSame(JobCauses, [queue[0].(phase := phase)] + queue[1..], queue, 0);
  }

  lemma {:induction false} TimerConserves(c: C.State, queue: seq<Job>, named: multiset<ChangeId>)
    requires C.Inv(c) && c.entry.Some? && c.entry.value.timer
    requires named + Queued(queue) + multiset(C.Waiting(c.entry)) <= multiset(c.accepted)
    ensures var c' := C.Next(c, C.TimerFires);
            && C.Inv(c')
            && var job := Job(true, C.CallOf(c.entry.value.causationIds), Phase.Queued);
               named + Queued(queue + [job]) + multiset(C.Waiting(c'.entry)) <= multiset(c'.accepted)
  {
    C.StepKeepsInv(c, C.TimerFires);
    QueuedAppend(queue, Job(true, C.CallOf(c.entry.value.causationIds), Phase.Queued));
  }

  lemma {:induction false} ScheduleConserves(c: C.State, account: string, cause: Option<ChangeId>,
          rest: multiset<ChangeId>)
    requires C.Inv(c) && rest + multiset(C.Waiting(c.entry)) <= multiset(c.accepted)
    ensures var c' := C.Next(c, C.Trigger(account, cause));
            C.Inv(c') && rest + multiset(C.Waiting(c'.entry)) <= multiset(c'.accepted)
  {
    C.StepKeepsInv(c, C.Trigger(account, cause));
  }

  lemma {:induction false} DecisionNames(base: Option<Published>, content: Snapshot.Content, fits: bool, call: Call,
          serial: nat, now: int)
    ensures var d := Decide(base, content, fits, call, serial, now);
            !d.Unchanged? ==> multiset(Names(d.event)) == multiset(C.Causes(call))
  {
  }

  lemma {:induction false} EndConserves(c: C.State, step: C.Step)
    requires C.Inv(c) && C.Enabled(c, step) && (step.RunEnds? || step.Stop?)
    ensures var c' := C.Next(c, step);
            && C.Inv(c')
            && c'.accepted == c.accepted
            && multiset(C.Waiting(c'.entry)) <= multiset(C.Waiting(c.entry))
  {
    C.StepKeepsInv(c, step);
  }

  lemma {:induction false} FinishConserves(p: string, fits: Snapshot.Content -> bool, s: System, now: int)
    requires Conserved(s) && Enabled(p, s, Finish(now))
    ensures Conserved(Next(p, fits, s, Finish(now)))
  {
    FinishInParts(p, fits, s, now);
    QueuedRest(s.queue);
    var ph := s.queue[0].phase;
    DecisionNames(ph.base, ph.content, fits(ph.content), s.queue[0].call, s.serial, now);
    var decision := Decide(ph.base, ph.content, fits(ph.content), s.queue[0].call, s.serial, now);
    if !decision.Unchanged? {
      NamedAppend(s.stream, decision.event);
    } else {
      assert s.stream + [] == s.stream;
    }
  }

  lemma {:induction false} ScheduleStepConserves(p: string, fits: Snapshot.Content -> bool, s: System, t: nat,
          account: string)
    requires Conserved(s) && Enabled(p, s, Schedule(t, account))
    ensures Conserved(Next(p, fits, s, Schedule(t, account)))
  {
    if p in s.tasks[t].found {
      ScheduleConserves(s.coordinator, account, s.tasks[t].cause, Named(s.stream) + Queued(s.queue));
    }
  }

  lemma {:induction false} TimerStepConserves(p: string, fits: Snapshot.Content -> bool, s: System)
    requires Conserved(s) && Enabled(p, s, TimerFires)
    ensures Conserved(Next(p, fits, s, TimerFires))
  {
    TimerConserves(s.coordinator, s.queue, Named(s.stream));
  }

  lemma {:induction false} EndStepConserves(p: string, fits: Snapshot.Content -> bool, s: System, step: Step)
    requires Conserved(s) && Enabled(p, s, step)
    requires step.RunEnds? || step.Stop?
    ensures Conserved(Next(p, fits, s, step))
  {
    if step.Stop? {
      EndConserves(s.coordinator, C.Stop);
    } else if s.coordinator.inFlight > 0 {
      EndConserves(s.coordinator, C.RunEnds);
    }
  }

  lemma {:induction false} GoneConserves(s: System)
    requires Conserved(s) && s.queue != []
    ensures Named(s.stream) + Queued(s.queue[1..])
              + multiset(C.Waiting(s.coordinator.entry)) <= multiset(s.coordinator.accepted)
  {
    QueuedRest(s.queue);
  }

  lemma {:induction false} LoadConserves(p: string, fits: Snapshot.Content -> bool, s: System, step: Step)
    requires Conserved(s) && Enabled(p, s, step)
    requires step.Load? || step.Fail?
    ensures Conserved(Next(p, fits, s, step))
  {
    LoadInParts(p, fits, s, step);
    if step.Fail? || Replay(s.stream).status != Active {
      GoneConserves(s);
    } else {
      QueuedPhase(s.queue, Loaded(Replay(s.stream).lastPublished, Replay(s.stream).name));
    }
  }

  lemma {:induction false} ArrivalConserves(p: string, fits: Snapshot.Content -> bool, s: System, step: Step)
    requires Conserved(s) && Enabled(p, s, step)
    requires step.PublishCall? || step.Foreign?
    ensures Conserved(Next(p, fits, s, step))
  {
    hide Next, Named, Queued, C.Inv, C.Waiting;
    match step
    case PublishCall =>
      ArrivalInParts(p, fits, s, step);
      QueuedAppend(s.queue, Job(false, C.Call(None, []), Phase.Queued));
    case Foreign(e) =>
      ForeignInParts(p, fits, s, e);
      NamedAppend(s.stream, e);
  }

  lemma {:induction false} StepConserves(p: string, fits: Snapshot.Content -> bool, s: System, step: Step)
    requires Conserved(s) && Enabled(p, s, step)
    ensures Conserved(Next(p, fits, s, step))
  {
    if step.Finish? {
      FinishConserves(p, fits, s, step.now);
    } else if step.Schedule? {
      ScheduleStepConserves(p, fits, s, step.task, step.accountId);
    } else if step.TimerFires? {
      TimerStepConserves(p, fits, s);
    } else if step.RunEnds? || step.Stop? {
      EndStepConserves(p, fits, s, step);
    } else if step.PublishCall? || step.Foreign? {
      ArrivalConserves(p, fits, s, step);
    } else if step.Load? || step.Fail? {
      LoadConserves(p, fits, s, step);
    } else {
      OthersMoveNothing(p, fits, s, step);
      var s' := Next(p, fits, s, step);
      if s'.queue != s.queue {
        QueuedPhase(s.queue, s'.queue[0].phase);
      }
    }
  }

  /** Each ip_changed event has its own id. */
  ghost predicate FreshIds(steps: seq<Step>) {
    forall i, j :: 0 <= i < j < |steps| && Issues(steps[i]) && Issues(steps[j]) ==> steps[i].cause != steps[j].cause
  }

  predicate Issues(step: Step) { step.DeviceEvent? && step.deviceEvent.IpChanged? }

  ghost predicate IssuedBy(steps: seq<Step>, id: ChangeId) {
    exists i :: 0 <= i < |steps| && Issues(steps[i]) && steps[i].cause == id
  }

  /** Every id in circulation was issued, waits in one task at most, and is accepted at most once. */
  ghost predicate Unique(tasks: map<nat, Task>, accepted: seq<ChangeId>, steps: seq<Step>) {
    && (forall i :: 0 <= i < |accepted| ==> IssuedBy(steps, accepted[i]))
    && (forall i, j :: 0 <= i < j < |accepted| ==> accepted[i] != accepted[j])
    && (forall t :: t in tasks && tasks[t].cause.Some? ==>
          IssuedBy(steps, tasks[t].cause.value) && tasks[t].cause.value !in accepted)
    && (forall t, u :: t in tasks && u in tasks && t != u && tasks[t].cause.Some? ==> tasks[t].cause != tasks[u].cause)
  }

  lemma {:induction false} IssuedGrows(steps: seq<Step>, step: Step)
    requires FreshIds(steps + [step])
    ensures forall id :: IssuedBy(steps, id) ==> IssuedBy(steps + [step], id)
    ensures Issues(step) ==> IssuedBy(steps + [step], step.cause) && !IssuedBy(steps, step.cause)
  {
    var all := steps + [step];
    forall id | IssuedBy(steps, id) ensures IssuedBy(all, id) && (Issues(step) ==> id != step.cause) {
      var i :| 0 <= i < |steps| && Issues(steps[i]) && steps[i].cause == id;
      assert all[i] == steps[i] && all[|steps|] == step;
    }
    if Issues(step) {
      assert all[|steps|] == step;
    }
  }

  lemma {:induction false} SignalsKeepTasks(p: string, fits: Snapshot.Content -> bool, s: System, step: Step)
    requires Enabled(p, s, step)
    requires step.TimerFires? || step.PublishCall? || step.RunEnds? || step.Stop? || step.Foreign?
    ensures var s' := Next(p, fits, s, step);
            s'.tasks == s.tasks && s'.coordinator.accepted == s.coordinator.accepted
  {
  }

  lemma {:induction false} HeadKeepsTasks(p: string, fits: Snapshot.Content -> bool, s: System, step: Step)
    requires Enabled(p, s, step)
    requires step.ListForContent? || step.ReadAction? || step.StartDevices? || step.ReadDevice? || step.Build?
    ensures var s' := Next(p, fits, s, step);
            s'.tasks == s.tasks && s'.coordinator.accepted == s.coordinator.accepted
  {
  }

  lemma {:induction false} ScheduleAccepts(p: string, fits: Snapshot.Content -> bool, s: System, step: Step)
    requires Enabled(p, s, step) && step.Schedule?
    ensures var s' := Next(p, fits, s, step);
            && step.task in s.tasks && s'.tasks == s.tasks - {step.task}
            && (|| s'.coordinator.accepted == s.coordinator.accepted
                || (s.tasks[step.task].cause.Some?
                    && s'.coordinator.accepted == s.coordinator.accepted + [s.tasks[step.task].cause.value]))
  {
  }

  lemma {:induction false} StepKeepsUnique(p: string, fits: Snapshot.Content -> bool, s: System, steps: seq<Step>,
          step: Step)
    requires Unique(s.tasks, s.coordinator.accepted, steps) && Enabled(p, s, step) && FreshIds(steps + [step])
    ensures var s' := Next(p, fits, s, step);
            Unique(s'.tasks, s'.coordinator.accepted, steps + [step])
  {
    hide Next, Enabled, FreshIds, IssuedBy, Unique, Issues;
    var s' := Next(p, fits, s, step);
    IssuedGrows(steps, step);
    if step.DeviceEvent? || step.ActionEvent? || step.ListActions? || step.ReadTaskAction? {
      TasksOnly(p, fits, s, step);
      TaskKeepsUnique(s.tasks, s'.tasks, s.coordinator.accepted, steps, step);
    } else if step.Schedule? {
      ScheduleAccepts(p, fits, s, step);
      ScheduleKeepsUnique(s.tasks, step.task, s.coordinator.accepted, s'.coordinator.accepted, steps, step);
    } else {
      NothingIsAccepted(p, fits, s, step);
      StillUnique(s.tasks, s.coordinator.accepted, steps, step);
    }
  }

  lemma {:induction false} StillUnique(tasks: map<nat, Task>, accepted: seq<ChangeId>, steps: seq<Step>, step: Step)
    requires Unique(tasks, accepted, steps) && forall id :: IssuedBy(steps, id) ==> IssuedBy(steps + [step], id)
    ensures Unique(tasks, accepted, steps + [step])
  {
    hide IssuedBy;
  }

  lemma {:induction false} ScheduleKeepsUnique(tasks: map<nat, Task>, t: nat, accepted: seq<ChangeId>,
          accepted': seq<ChangeId>, steps: seq<Step>, step: Step)
    requires Unique(tasks, accepted, steps) && forall id :: IssuedBy(steps, id) ==> IssuedBy(steps + [step], id)
    requires t in tasks
    requires accepted' == accepted || (tasks[t].cause.Some? && accepted' == accepted + [tasks[t].cause.value])
    ensures Unique(tasks - {t}, accepted', steps + [step])
  {
    hide IssuedBy;
  }

  lemma {:induction false} TaskKeepsUnique(tasks: map<nat, Task>, tasks': map<nat, Task>, accepted: seq<ChangeId>,
          steps: seq<Step>, step: Step)
    requires Unique(tasks, accepted, steps)
    requires step.DeviceEvent? || step.ActionEvent? || step.ListActions? || step.ReadTaskAction?
    requires forall id :: IssuedBy(steps, id) ==> IssuedBy(steps + [step], id)
    requires Issues(step) ==> IssuedBy(steps + [step], step.cause) && !IssuedBy(steps, step.cause)
    requires forall t :: t in tasks && t != step.task ==> t in tasks' && tasks'[t] == tasks[t]
    requires forall t :: t in tasks' ==> t in tasks || t == step.task
    requires step.task in tasks ==> step.task in tasks' && tasks'[step.task].cause == tasks[step.task].cause
    requires step.task !in tasks && step.task in tasks' && tasks'[step.task].cause.Some? ==>
               Issues(step) && tasks'[step.task].cause.value == step.cause
    ensures Unique(tasks', accepted, steps + [step])
  {
    hide IssuedBy, Issues;
  }

  lemma {:induction false} NothingIsAccepted(p: string, fits: Snapshot.Content -> bool, s: System, step: Step)
    requires Enabled(p, s, step) && !step.DeviceEvent? && !step.ActionEvent? && !step.ListActions?
    requires !step.ReadTaskAction?
    requires !step.Schedule?
    ensures var s' := Next(p, fits, s, step);
            s'.tasks == s.tasks && s'.coordinator.accepted == s.coordinator.accepted
  {
    if step.Finish? {
      FinishInParts(p, fits, s, step.now);
    } else if step.Load? || step.Fail? {
      LoadInParts(p, fits, s, step);
    } else if step.TimerFires? || step.PublishCall? || step.RunEnds? || step.Stop? || step.Foreign? {
      SignalsKeepTasks(p, fits, s, step);
    } else {
      HeadKeepsTasks(p, fits, s, step);
    }
  }

  /** Steps of the handlers before their `schedule` change one task and keep its cause. */
  lemma {:induction false} TasksOnly(p: string, fits: Snapshot.Content -> bool, s: System, step: Step)
    requires Enabled(p, s, step)
    requires step.DeviceEvent? || step.ActionEvent? || step.ListActions? || step.ReadTaskAction?
    ensures var s' := Next(p, fits, s, step);
            && s'.coordinator == s.coordinator
            && (forall t :: t in s.tasks && (t != step.task) ==> t in s'.tasks && s'.tasks[t] == s.tasks[t])
            && (forall t :: t in s'.tasks ==> t in s.tasks || t == step.task)
            && (step.task in s.tasks ==> step.task in s'.tasks && s'.tasks[step.task].cause == s.tasks[step.task].cause)
            && (step.task !in s.tasks && step.task in s'.tasks && s'.tasks[step.task].cause.Some? ==>
                  Issues(step) && s'.tasks[step.task].cause.value == step.cause)
  {
  }

  /** A change is named by at most one event of a provider, and there only once: provided each ip_changed
      event has its own id, for any race of triggers, runs and failures. */
  lemma {:induction false} ChangesAreNamedOnce(p: string, fits: Snapshot.Content -> bool, run: seq<System>,
          steps: seq<Step>, id: ChangeId)
    requires IsRun(p, fits, run, steps) && FreshIds(steps)
    requires run[0].tasks == map[]
    ensures Named(run[|steps|].stream)[id] <= 1
  {
    InvHolds(p, fits, run, steps, |steps|);
    AtMostOnce(run[|steps|].coordinator.accepted, id);
  }

  lemma {:induction false} AtMostOnce(xs: seq<ChangeId>, id: ChangeId)
    requires forall i, j :: 0 <= i < j < |xs| ==> xs[i] != xs[j]
    ensures multiset(xs)[id] <= 1
  {
    if xs != [] {
      var n := |xs| - 1;
      AtMostOnce(xs[..n], id);
      assert xs == xs[..n] + [xs[n]];
    }
  }

  lemma {:induction false} InvFrom(p: string, fits: Snapshot.Content -> bool, run: seq<System>, steps: seq<Step>,
          k: nat)
    requires k <= |steps| < |run| && FreshIds(steps)
    requires Conserved(run[0]) && Unique(run[0].tasks, run[0].coordinator.accepted, [])
    requires forall i :: 0 <= i < |steps| ==> Follows(p, fits, run, steps, i)
    ensures Conserved(run[k]) && Unique(run[k].tasks, run[k].coordinator.accepted, steps[..k])
    decreases k
  {
    if k > 0 {
      InvFrom(p, fits, run, steps, k - 1);
      InvFollows(p, fits, run, steps, k - 1);
    }
  }

  lemma {:induction false} InitConserves(p: string, s: System)
    requires Init(p, s) && s.tasks == map[]
    ensures Conserved(s) && Unique(s.tasks, s.coordinator.accepted, [])
  {
    var name :| s.stream == [Created(name)];
    assert [Created(name)] == [] + [Created(name)];
    NamedAppend([], Created(name));
  }

  lemma {:induction false} InvHolds(p: string, fits: Snapshot.Content -> bool, run: seq<System>, steps: seq<Step>,
          k: nat)
    requires IsRun(p, fits, run, steps) && FreshIds(steps) && k <= |steps|
    requires run[0].tasks == map[]
    ensures Conserved(run[k]) && Unique(run[k].tasks, run[k].coordinator.accepted, steps[..k])
  {
    InitConserves(p, run[0]);
    InvFrom(p, fits, run, steps, k);
  }

  lemma {:induction false} InvFollows(p: string, fits: Snapshot.Content -> bool, run: seq<System>, steps: seq<Step>,
          i: nat)
    requires i < |steps| < |run| && Follows(p, fits, run, steps, i) && FreshIds(steps)
    requires Conserved(run[i]) && Unique(run[i].tasks, run[i].coordinator.accepted, steps[..i])
    ensures Conserved(run[i + 1]) && Unique(run[i + 1].tasks, run[i + 1].coordinator.accepted, steps[..i + 1])
  {
    assert steps[..i + 1] == steps[..i] + [steps[i]];
    FreshPrefix(steps, i + 1);
    StepConserves(p, fits, run[i], steps[i]);
    StepKeepsUnique(p, fits, run[i], steps[..i], steps[i]);
  }

  lemma {:induction false} FreshPrefix(steps: seq<Step>, k: nat)
    requires FreshIds(steps) && k <= |steps|
    ensures FreshIds(steps[..k])
  {
  }
}

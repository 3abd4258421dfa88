/** The pending work runs out: left to itself, the machine comes to rest, and then the current state is published. */
module Settling {
  import opened Options
  import opened Snapshot
  import opened TraefikProvider
  import opened Publication
  import opened FinalState
  import Action
  import IpClient
  import C = Coordinator
  import Versions

  /** Everything but what comes from outside: account events, publish calls, the stop, and others' appends. */
  predicate Inner(step: Step) {
    && !step.DeviceEvent? && !step.ActionEvent? && !step.PublishCall? && !step.Stop? && !step.Foreign?
  }

  /** Nothing is pending. */
  predicate Quiet(s: System) {
    s.tasks == map[] && s.coordinator.entry.None? && s.queue == [] && !s.settled
  }

  // ---- How much work is left, in steps, for an account of so many actions

  function PhaseWork(phase: Phase, actions: nat): nat {
    match phase
    case Queued => 2 * actions + 5
    case Loaded(_, _) => 2 * actions + 4
    case ReadingActions(_, _, read, todo) => |todo| + |read.Keys + todo| + 3
    case ReadingDevices(_, _, _, _, todo) => |todo| + 2
    case Built(_, _) => 1
  }

  /** A run's `finally` counts as well. */
  function JobWork(job: Job, actions: nat): nat {
    PhaseWork(job.phase, actions) + (if job.isRun then 1 else 0)
  }

  function QueueWork(queue: seq<Job>, actions: nat): nat {
    if queue == [] then 0 else JobWork(queue[0], actions) + QueueWork(queue[1..], actions)
  }

  /** The timer's firing, and the run it starts. */
  function RunWork(actions: nat): nat {
    2 * actions + 7
  }

  function TimerWork(c: C.State, actions: nat): nat {
    if Armed(c) then RunWork(actions) else 0
  }

  /** A task's reads, its `schedule`, and the run that causes. */
  function TaskWork(t: Task, actions: nat): nat {
    (if t.listed then |t.todo| + 1 else actions + 2) + RunWork(actions)
  }

  ghost function TasksWork(tasks: map<nat, Task>, actions: nat): nat {
    if tasks == map[] then 0 else
      var t :| t in tasks;
      TaskWork(tasks[t], actions) + TasksWork(tasks - {t}, actions)
  }

  ghost function Work(s: System): nat {
    var actions := |s.world.actions|;
    TasksWork(s.tasks, actions) + TimerWork(s.coordinator, actions) + QueueWork(s.queue, actions)
      + (if s.settled then 1 else 0)
  }

  // ---- Every step takes some of it

  lemma {:induction false} TaskIsPart(tasks: map<nat, Task>, actions: nat, t: nat)
    requires t in tasks
    ensures TasksWork(tasks, actions) == TaskWork(tasks[t], actions) + TasksWork(tasks - {t}, actions)
    decreases |tasks|
  {
    hide TaskWork;
    var u :| u in tasks && TasksWork(tasks, actions) == TaskWork(tasks[u], actions) + TasksWork(tasks - {u}, actions);
    if u != t {
      TaskIsPart(tasks - {u}, actions, t);
      TaskIsPart(tasks - {t}, actions, u);
      assert tasks - {u} - {t} == tasks - {t} - {u};
    }
  }

  lemma {:induction false} TaskMovesOn(tasks: map<nat, Task>, actions: nat, t: nat, task: Task)
    requires t in tasks && TaskWork(task, actions) < TaskWork(tasks[t], actions)
    ensures TasksWork(tasks[t := task], actions) < TasksWork(tasks, actions)
  {
    TaskIsPart(tasks, actions, t);
    TaskIsPart(tasks[t := task], actions, t);
    assert tasks[t := task] - {t} == tasks - {t};
    hide TaskWork, TasksWork;
  }

  lemma {:induction false} JobArrives(queue: seq<Job>, job: Job, actions: nat)
    ensures QueueWork(queue + [job], actions) == QueueWork(queue, actions) + JobWork(job, actions)
  {
    hide JobWork;
    if queue == [] {
      assert [] + [job] == [job];
    } else {
      assert (queue + [job])[1..] == queue[1..] + [job];
      JobArrives(queue[1..], job, actions);
    }
  }

  lemma {:induction false} HeadMoves(queue: seq<Job>, phase: Phase, actions: nat)
    requires queue != [] && PhaseWork(phase, actions) < PhaseWork(queue[0].phase, actions)
    ensures QueueWork([queue[0].(phase := phase)] + queue[1..], actions) < QueueWork(queue, actions)
  {
    assert ([queue[0].(phase := phase)] + queue[1..])[1..] == queue[1..];
  }

  lemma {:induction false} MembersAreFew(actions: map<string, Action.State>, p: string)
    ensures |MemberDevices(actions, p)| <= |actions|
    decreases |actions|
  {
    if actions == map[] {
      assert MemberDevices(actions, p) == {};
    } else {
      var a :| a in actions;
      var rest := actions - {a};
      MembersAreFew(rest, p);
      var m := Member(actions[a], p);
      var here := if m.Some? then {m.value.device} else {};
      forall d | d in MemberDevices(actions, p) ensures d in MemberDevices(rest, p) + here {
        var x :| x in Members(World(actions, map[]), p) && x.device == d;
        var b :| b in actions && Member(actions[b], p) == Some(x);
        if b != a {
          assert b in rest && x in Members(World(rest, map[]), p);
        }
      }
      Subset(MemberDevices(actions, p), MemberDevices(rest, p) + here);
    }
  }

  lemma {:induction false} Subset<T>(a: set<T>, b: set<T>)
    requires a <= b
    ensures |a| <= |b|
  {
    assert b == a + (b - a);
  }

  lemma {:induction false} ListingTakes(ph: Phase, keys: set<string>)
    requires ph.Loaded?
    ensures PhaseWork(ReadingActions(ph.base, ph.name, map[], keys), |keys|) < PhaseWork(ph, |keys|)
  {
    var none: map<string, Action.State> := map[];
    assert none.Keys + keys == keys;
  }

  lemma {:induction false} ReadActionTakes(ph: Phase, a: string, state: Action.State, actions: nat)
    requires ph.ReadingActions? && a in ph.todo
    ensures var ph' := ReadingActions(ph.base, ph.name, ph.actions[a := state], ph.todo - {a});
            PhaseWork(ph', actions) < PhaseWork(ph, actions)
  {
    assert ph.actions[a := state].Keys + (ph.todo - {a}) == ph.actions.Keys + ph.todo;
  }

  lemma {:induction false} StartDevicesTakes(p: string, ph: Phase, actions: nat)
    requires ph.ReadingActions? && ph.todo == {}
    ensures var ph' := ReadingDevices(ph.base, ph.name, ph.actions, map[], MemberDevices(ph.actions, p));
            PhaseWork(ph', actions) < PhaseWork(ph, actions)
  {
    MembersAreFew(ph.actions, p);
    assert ph.actions.Keys + {} == ph.actions.Keys;
    hide MemberDevices;
  }

  lemma {:induction false} ReadDeviceTakes(ph: Phase, d: string, state: IpClient.State, actions: nat)
    requires ph.ReadingDevices? && d in ph.todo
    ensures var ph' := ReadingDevices(ph.base, ph.name, ph.actions, ph.devices[d := state], ph.todo - {d});
            PhaseWork(ph', actions) < PhaseWork(ph, actions)
  {
  }

  lemma {:induction false} BuildTakes(ph: Phase, content: Content, actions: nat)
    requires ph.ReadingDevices? && ph.todo == {}
    ensures PhaseWork(Built(ph.base, content), actions) < PhaseWork(ph, actions)
  {
  }

  lemma {:induction false} ReadingTakes(p: string, fits: Content -> bool, s: System, step: Step)
    requires Enabled(p, s, step)
    requires step.ListForContent? || step.ReadAction? || step.StartDevices? || step.ReadDevice? || step.Build?
    ensures var actions := |s.world.actions|;
            PhaseWork(Next(p, fits, s, step).queue[0].phase, actions) < PhaseWork(s.queue[0].phase, actions)
  {
    hide Groups, MemberDevices, ActionIn, Snapshot.Device, PhaseWork;
    var ph, actions := s.queue[0].phase, |s.world.actions|;
    match step
    case ListForContent => ListingTakes(ph, s.world.actions.Keys);
    case ReadAction(a) => ReadActionTakes(ph, a, ActionIn(s.world, a), actions);
    case StartDevices => StartDevicesTakes(p, ph, actions);
    case ReadDevice(d) => ReadDeviceTakes(ph, d, Device(s.world, d), actions);
    case Build => BuildTakes(ph, Content(ph.name, Groups(World(ph.actions, ph.devices), p)), actions);
  }

  lemma {:induction false} QueueShrinks(p: string, fits: Content -> bool, s: System, step: Step)
    requires Enabled(p, s, step)
    requires step.ListForContent? || step.ReadAction? || step.StartDevices? || step.ReadDevice? || step.Build?
    ensures Work(Next(p, fits, s, step)) < Work(s)
  {
    ReadingMovesPhase(p, fits, s, step);
    ReadingTakes(p, fits, s, step);
    hide Next, Enabled, TasksWork, TimerWork, QueueWork, PhaseWork;
    HeadMoves(s.queue, Next(p, fits, s, step).queue[0].phase, |s.world.actions|);
  }

  lemma {:induction false} HeadGoes(queue: seq<Job>, actions: nat)
    requires queue != []
    ensures QueueWork(queue[1..], actions) + (if queue[0].isRun then 1 else 0) < QueueWork(queue, actions)
  {
  }

  lemma {:induction false} HeadShrinks(p: string, fits: Content -> bool, s: System, step: Step)
    requires Enabled(p, s, step) && (step.Load? || step.Fail? || step.Finish?)
    ensures Work(Next(p, fits, s, step)) < Work(s)
  {
    var s', actions := Next(p, fits, s, step), |s.world.actions|;
    if step.Finish? {
      FinishInParts(p, fits, s, step.now);
    } else {
      LoadInParts(p, fits, s, step);
    }
    HeadSettles(p, fits, s, step);
    hide Next, TasksWork, TimerWork, QueueWork, Replay, Decide;
    HeadGoes(s.queue, actions);
    if s'.queue != s.queue[1..] {
      HeadMoves(s.queue, Loaded(Replay(s.stream).lastPublished, Replay(s.stream).name), actions);
    }
  }

  lemma {:induction false} HeadSettles(p: string, fits: Content -> bool, s: System, step: Step)
    requires Enabled(p, s, step) && (step.Load? || step.Fail? || step.Finish?)
    ensures var s' := Next(p, fits, s, step);
            s'.settled == if s'.queue == s.queue[1..] then s.settled || s.queue[0].isRun else s.settled
  {
    hide Replay, Decide;
    assert |s.queue[1..]| < |s.queue|;
  }

  lemma {:induction false} TaskShrinks(p: string, fits: Content -> bool, s: System, step: Step)
    requires Enabled(p, s, step) && (step.ListActions? || step.ReadTaskAction? || step.Schedule?)
    ensures Work(Next(p, fits, s, step)) < Work(s)
  {
    hide TasksWork, QueueWork, Target;
    var s', actions := Next(p, fits, s, step), |s.world.actions|;
    if step.Schedule? {
      TaskIsPart(s.tasks, actions, step.task);
    } else {
      TaskMovesOn(s.tasks, actions, step.task, s'.tasks[step.task]);
    }
  }

  lemma {:induction false} TimerShrinks(p: string, fits: Content -> bool, s: System, step: Step)
    requires Enabled(p, s, step) && (step.TimerFires? || step.RunEnds?)
    ensures Work(Next(p, fits, s, step)) < Work(s)
  {
    hide TasksWork, QueueWork;
    if step.TimerFires? {
      var job := Job(true, C.CallOf(s.coordinator.entry.value.causationIds), Queued);
      JobArrives(s.queue, job, |s.world.actions|);
    }
  }

  /** Whatever the machine does by itself, failures included, less work is left afterwards. */
  lemma {:induction false} WorkShrinks(p: string, fits: Content -> bool, s: System, step: Step)
    requires Enabled(p, s, step) && Inner(step)
    ensures Work(Next(p, fits, s, step)) < Work(s)
  {
    hide Next, Enabled, Work;
    if step.ListActions? || step.ReadTaskAction? || step.Schedule? {
      TaskShrinks(p, fits, s, step);
    } else if step.TimerFires? || step.RunEnds? {
      TimerShrinks(p, fits, s, step);
    } else if step.Load? || step.Fail? || step.Finish? {
      HeadShrinks(p, fits, s, step);
    } else {
      QueueShrinks(p, fits, s, step);
    }
  }

  // ---- And as long as there is any, something can be done

  lemma {:induction false} HeadCanMove(p: string, s: System) returns (step: Step)
    requires s.queue != []
    ensures Enabled(p, s, step) && Inner(step) && !step.Fail?
  {
    match s.queue[0].phase
    case Queued => step := Load;
    case Loaded(_, _) => step := ListForContent;
    case ReadingActions(_, _, _, todo) =>
      if todo == {} {
        step := StartDevices;
      } else {
        var a :| a in todo;
        step := ReadAction(a);
      }
    case ReadingDevices(_, _, _, _, todo) =>
      if todo == {} {
        step := Build;
      } else {
        var d :| d in todo;
        step := ReadDevice(d);
      }
    case Built(_, _) => step := Finish(0);
  }

  lemma {:induction false} TaskCanMove(p: string, s: System) returns (step: Step)
    requires s.tasks != map[]
    ensures Enabled(p, s, step) && Inner(step) && !step.Fail?
  {
    var t :| t in s.tasks;
    if !s.tasks[t].listed {
      step := ListActions(t);
    } else if s.tasks[t].todo == {} {
      step := Schedule(t, "");
    } else {
      var a :| a in s.tasks[t].todo;
      step := ReadTaskAction(t, a);
    }
  }

  /** Nothing waits for something that never comes. */
  lemma {:induction false} SomethingCanMove(p: string, s: System) returns (step: Step)
    requires RunInv(s) && !s.coordinator.stopped && !Quiet(s)
    ensures Enabled(p, s, step) && Inner(step) && !step.Fail?
  {
    if s.tasks != map[] {
      step := TaskCanMove(p, s);
    } else if s.queue != [] {
      step := HeadCanMove(p, s);
    } else if s.settled {
      step := RunEnds;
    } else {
      step := TimerFires;
    }
  }

  // ---- So the final state is published

  lemma {:induction false} StaysRunning(p: string, fits: Content -> bool, s: System, step: Step)
    requires Enabled(p, s, step) && Inner(step) && !s.coordinator.stopped
    ensures !Next(p, fits, s, step).coordinator.stopped
    ensures Next(p, fits, s, step).world == s.world
  {
    hide Replay, Action.Reduce, Groups, Decide, MemberDevices;
  }

  lemma {:induction false} WorkBounds(p: string, fits: Content -> bool, run: seq<System>, steps: seq<Step>, i: nat,
          j: nat)
    requires IsRun(p, fits, run, steps) && i <= j <= |steps|
    requires forall k :: i <= k < j ==> Inner(steps[k])
    ensures j - i + Work(run[j]) <= Work(run[i])
    decreases j
  {
    hide Next, Enabled, Init, Work, Inner;
    if i < j {
      WorkBounds(p, fits, run, steps, i, j - 1);
      assert Follows(p, fits, run, steps, j - 1);
      WorkShrinks(p, fits, run[j - 1], steps[j - 1]);
    }
  }

  lemma {:induction false} QuietIsCurrent(p: string, fits: Content -> bool, s: System)
    requires Quiet(s) && Stands(p, fits, s)
    ensures !OutOfDate(p, fits, s.world, s.stream)
  {
  }

  ghost predicate AtRest(p: string, s: System) {
    forall step :: Inner(step) && !step.Fail? ==> !Enabled(p, s, step)
  }

  /** The final state is published: from any reachable state in which the promise stands, however the machine
      goes on by itself, it comes to rest after a bounded number of steps. It rests only with nothing pending,
      and if no failure broke the promise, what is published then is the current state. */
  lemma {:induction false} FinalStateIsPublished(p: string, fits: Content -> bool, run: seq<System>, steps: seq<Step>,
          i: nat)
    requires IsRun(p, fits, run, steps) && i <= |steps| && !run[|steps|].coordinator.stopped
    requires i == 0 || Stands(p, fits, run[i])
    requires forall k :: i <= k < |steps| ==> Inner(steps[k]) && !Breaks(p, fits, run[k], steps[k])
    ensures |steps| - i <= Work(run[i])
    ensures AtRest(p, run[|steps|]) ==>
              Quiet(run[|steps|]) && !OutOfDate(p, fits, run[|steps|].world, run[|steps|].stream)
  {
    var s := run[|steps|];
    WorkBounds(p, fits, run, steps, i, |steps|);
    FinalStateWins(p, fits, run, steps, i, |steps|);
    InvHolds(p, fits, run, steps, |steps|);
    if AtRest(p, s) && !Quiet(s) {
      var step := SomethingCanMove(p, s);
      assert false;
    }
    hide *;
    if Quiet(s) {
      QuietIsCurrent(p, fits, s);
    }
  }

  /** And it can always come to rest without a failure: any run goes on to a state in which nothing is pending
      and, if the promise stood, the current state is published. */
  lemma {:induction false} RestIsReachable(p: string, fits: Content -> bool, run: seq<System>, steps: seq<Step>)
    returns (run': seq<System>, steps': seq<Step>)
    requires IsRun(p, fits, run, steps) && !run[|steps|].coordinator.stopped
    ensures IsRun(p, fits, run', steps') && steps <= steps'
    ensures Quiet(run'[|steps'|]) && run'[|steps'|].world == run[|steps|].world
    ensures Stands(p, fits, run[|steps|]) ==> !OutOfDate(p, fits, run'[|steps'|].world, run'[|steps'|].stream)
    decreases Work(run[|steps|])
  {
    hide Next, Enabled, Init, Follows, Work, Stands, Quiet, OutOfDate;
    if Quiet(run[|steps|]) {
      run', steps' := run, steps;
      if Stands(p, fits, run[|steps|]) {
        QuietIsCurrent(p, fits, run[|steps|]);
      }
    } else {
      run', steps' := MoveOn(p, fits, run, steps);
      run', steps' := RestIsReachable(p, fits, run', steps');
    }
  }

  lemma {:induction false} MoveOn(p: string, fits: Content -> bool, run: seq<System>, steps: seq<Step>)
    returns (run': seq<System>, steps': seq<Step>)
    requires IsRun(p, fits, run, steps) && !run[|steps|].coordinator.stopped && !Quiet(run[|steps|])
    ensures IsRun(p, fits, run', steps') && |steps'| == |steps| + 1 && steps <= steps'
    ensures var s, s' := run[|steps|], run'[|steps'|];
            && Work(s') < Work(s) && s'.world == s.world && !s'.coordinator.stopped
            && (Stands(p, fits, s) ==> Stands(p, fits, s'))
  {
    hide Next, Quiet, RunInv, Stands, Fresh, Init, Follows, Enabled, Work, Versions.Inv;
    var s := run[|steps|];
    InvHolds(p, fits, run, steps, |steps|);
    var step := SomethingCanMove(p, s);
    StaysRunning(p, fits, s, step);
    WorkShrinks(p, fits, s, step);
    if Stands(p, fits, s) {
      StepIsExact(p, fits, s, step);
    }
    run', steps' := Extend(p, fits, run, steps, step);
  }
}

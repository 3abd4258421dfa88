/** Snapshot publication as one machine, seen from one provider: account events, the change tasks that
follow them, the coordinator, the publisher's mutex queue with its separate reads, and the stream.
One step is one synchronous stretch between two awaits. */
module Publication {
  import opened Options
  import opened Snapshot
  import opened TraefikProvider
  import Action
  import IpClient
  import C = Coordinator

  /** What a handler still has to do between its append and its `schedule`. A task of a device event lists
      and reads the account's actions one by one; a task of an action event may re-read its action. */
  datatype Task = Task(found: set<string>, device: Option<string>, listed: bool, todo: set<string>,
                       cause: Option<ChangeId>)

  /** How far the job that holds the provider's mutex has read. */
  datatype Phase =
    | Queued
    | Loaded(base: Option<Published>, name: string)
    | ReadingActions(base: Option<Published>, name: string, actions: map<string, Action.State>, todo: set<string>)
    | ReadingDevices(
        base: Option<Published>,
        name: string,
        actions: map<string, Action.State>,
        devices: map<string, IpClient.State>,
        todo: set<string>)
    | Built(base: Option<Published>, content: Content)

  /** A publish call in arrival order: a run of the coordinator, or a hello, sync or resync. */
  datatype Job = Job(isRun: bool, call: Call, phase: Phase)

  /** `settled`: the run's publish has settled, its `finally` is still to come. `handed` is what the calls returned,
      `announced` what they returned as changed. */
  datatype System = System(
    world: World,
    tasks: map<nat, Task>,
    coordinator: C.State,
    queue: seq<Job>,
    settled: bool,
    stream: seq<Event>,
    handed: seq<Payload>,
    announced: seq<Payload>,
    serial: nat)

  datatype Step =
    | DeviceEvent(task: nat, device: string, deviceEvent: IpClient.Event, cause: ChangeId)
    | ActionEvent(task: nat, action: string, actionEvent: Action.Event)
    | ListActions(task: nat)
    | ReadTaskAction(task: nat, action: string)
    | Schedule(task: nat, accountId: string)
    | TimerFires
    | PublishCall
    | Load
    | ListForContent
    | ReadAction(action: string)
    | StartDevices
    | ReadDevice(device: string)
    | Build
    | Finish(now: int)
    | Fail
    | RunEnds
    | Stop
    | Foreign(event: Event)

  function ActionIn(w: World, a: string): Action.State {
    if a in w.actions then w.actions[a] else Action.INITIAL
  }

  /** A device event that can change what a snapshot says is followed by a `schedule`. */
  predicate Notifies(e: IpClient.Event) {
    e.IpChanged? || e.SetEnabled? || e.SetDisabled? || e.SetDecommissioned?
  }

  predicate ActionNotifies(e: Action.Event) { !e.FirewallRuleApplied? }

  /** The providers the task adds when it reads this action. */
  function Target(t: Task, a: Action.State): set<string> {
    if t.device.Some? then DeviceTarget(a, t.device.value) else DeliveryTarget(a)
  }

  predicate Enabled(p: string, s: System, step: Step) {
    match step
    case DeviceEvent(t, d, e, _) =>
      && t !in s.tasks
      && (e.Registered? <==> d !in s.world.devices)
    case ActionEvent(t, a, e) =>
      && t !in s.tasks
      && (e.Attached? <==> a !in s.world.actions)
    case ListActions(t) => t in s.tasks && !s.tasks[t].listed
    case ReadTaskAction(t, a) => t in s.tasks && s.tasks[t].listed && a in s.tasks[t].todo
    case Schedule(t, _) => t in s.tasks && s.tasks[t].listed && s.tasks[t].todo == {}
    case TimerFires => s.coordinator.entry.Some? && s.coordinator.entry.value.timer
    case PublishCall => true
    case Load => s.queue != [] && s.queue[0].phase.Queued?
    case ListForContent => s.queue != [] && s.queue[0].phase.Loaded?
    case ReadAction(a) => s.queue != [] && s.queue[0].phase.ReadingActions? && a in s.queue[0].phase.todo
    case StartDevices => s.queue != [] && s.queue[0].phase.ReadingActions? && s.queue[0].phase.todo == {}
    case ReadDevice(d) => s.queue != [] && s.queue[0].phase.ReadingDevices? && d in s.queue[0].phase.todo
    case Build => s.queue != [] && s.queue[0].phase.ReadingDevices? && s.queue[0].phase.todo == {}
    case Finish(_) => s.queue != [] && s.queue[0].phase.Built?
    case Fail => s.queue != []
    case RunEnds => s.settled
    case Stop => true
    case Foreign(e) => IsForeign(e)
  }

  function AtHead(s: System, phase: Phase): System
    requires s.queue != []
  {
    s.(queue := [s.queue[0].(phase := phase)] + s.queue[1..])
  }

  /** The head job returns or throws: the mutex passes on, and a run's `finally` becomes due. */
  function HeadDone(s: System): System
    requires s.queue != []
  {
    s.(queue := s.queue[1..], settled := s.settled || s.queue[0].isRun)
  }

  ghost function MemberDevices(actions: map<string, Action.State>, p: string): set<string> {
    set m | m in Members(World(actions, map[]), p) :: m.device
  }

  ghost function Next(p: string, fits: Content -> bool, s: System, step: Step): System
    requires Enabled(p, s, step)
  {
    match step
    case DeviceEvent(t, d, e, cause) =>
      var w := s.world.(devices := s.world.devices[d := IpClient.Reduce(Device(s.world, d), e)]);
      if Notifies(e) then
        s.(world := w, tasks := s.tasks[t := Task({}, Some(d), false, {}, if e.IpChanged? then Some(cause) else None)])
      else s.(world := w)
    case ActionEvent(t, a, e) =>
      var before := ActionIn(s.world, a);
      var w := s.world.(actions := s.world.actions[a := Action.Reduce(before, e)]);
      if ActionNotifies(e) then
        var todo := if e.Attached? || e.Reconfigured? then {a} else {};
        s.(world := w, tasks := s.tasks[t := Task(DeliveryTarget(before), None, true, todo, None)])
      else s.(world := w)
    case ListActions(t) => s.(tasks := s.tasks[t := s.tasks[t].(listed := true, todo := s.world.actions.Keys)])
    case ReadTaskAction(t, a) =>
      var task := s.tasks[t];
      s.(tasks := s.tasks[t := task.(found := task.found + Target(task, ActionIn(s.world, a)),
                                     todo := task.todo - {a})])
    case Schedule(t, account) =>
      var task := s.tasks[t];
      s.(tasks := s.tasks - {t},
         coordinator :=
           if p in task.found then C.Next(s.coordinator, C.Trigger(account, task.cause)) else s.coordinator)
    case TimerFires =>
      s.(coordinator := C.Next(s.coordinator, C.TimerFires),
         queue := s.queue + [Job(true, C.CallOf(s.coordinator.entry.value.causationIds), Queued)])
    case PublishCall => s.(queue := s.queue + [Job(false, C.Call(None, []), Queued)])
    case Load =>
      var loaded := Replay(s.stream);
      if loaded.status != Active then HeadDone(s) else AtHead(s, Loaded(loaded.lastPublished, loaded.name))
    case ListForContent =>
      var ph := s.queue[0].phase;
      AtHead(s, ReadingActions(ph.base, ph.name, map[], s.world.actions.Keys))
    case ReadAction(a) =>
      var ph := s.queue[0].phase;
      AtHead(s, ReadingActions(ph.base, ph.name, ph.actions[a := ActionIn(s.world, a)], ph.todo - {a}))
    case StartDevices =>
      var ph := s.queue[0].phase;
      AtHead(s, ReadingDevices(ph.base, ph.name, ph.actions, map[], MemberDevices(ph.actions, p)))
    case ReadDevice(d) =>
      var ph := s.queue[0].phase;
      AtHead(s, ReadingDevices(ph.base, ph.name, ph.actions, ph.devices[d := Device(s.world, d)], ph.todo - {d}))
    case Build =>
      var ph := s.queue[0].phase;
      AtHead(s, Built(ph.base, Content(ph.name, Groups(World(ph.actions, ph.devices), p))))
    case Finish(now) =>
      var ph := s.queue[0].phase;
      var decision := Decide(ph.base, ph.content, fits(ph.content), s.queue[0].call, s.serial, now);
      var result := Outcome(decision, |s.stream| + 1);
      HeadDone(s).(
        stream := s.stream + (if decision.Unchanged? then [] else [decision.event]),
        handed := s.handed + (if result.Some? then [result.value.snapshot] else []),
        announced := s.announced + (if result.Some? && result.value.changed then [result.value.snapshot] else []),
        serial := s.serial + 1)
    case Fail => HeadDone(s)
    case RunEnds =>
      s.(settled := false,
         coordinator := if s.coordinator.inFlight > 0 then C.Next(s.coordinator, C.RunEnds) else s.coordinator)
    case Stop => s.(coordinator := C.Next(s.coordinator, C.Stop))
    case Foreign(e) => s.(stream := s.stream + [e])
  }

  ghost predicate Init(p: string, s: System) {
    && (forall a :: a in s.world.actions ==> p !in DeliveryTarget(s.world.actions[a]))
    && s.coordinator == C.INITIAL
    && s.queue == [] && !s.settled
    && (exists name :: s.stream == [Created(name)])
    && s.handed == [] && s.announced == []
  }

  ghost predicate Follows(p: string, fits: Content -> bool, run: seq<System>, steps: seq<Step>, i: nat)
    requires i < |steps| < |run|
  {
    Enabled(p, run[i], steps[i]) && run[i + 1] == Next(p, fits, run[i], steps[i])
  }

  ghost predicate IsRun(p: string, fits: Content -> bool, run: seq<System>, steps: seq<Step>) {
    && |run| == |steps| + 1
    && Init(p, run[0])
    && forall i :: 0 <= i < |steps| ==> Follows(p, fits, run, steps, i)
  }

  lemma {:induction false} Induction(inv: System -> bool, run: seq<System>, k: nat)
    requires k < |run| && inv(run[0]) && forall i :: 0 <= i < |run| - 1 && inv(run[i]) ==> inv(run[i + 1])
    ensures inv(run[k])
  {
    if k > 0 {
      Induction(inv, run, k - 1);
      assert inv(run[k - 1 + 1]);
    }
  }

  lemma {:induction false} Extend(p: string, fits: Content -> bool, run: seq<System>, steps: seq<Step>, step: Step)
    returns (run': seq<System>, steps': seq<Step>)
    requires IsRun(p, fits, run, steps) && Enabled(p, run[|steps|], step)
    ensures IsRun(p, fits, run', steps') && steps' == steps + [step]
    ensures run' == run + [Next(p, fits, run[|steps|], step)] && run'[|steps'|] == Next(p, fits, run[|steps|], step)
  {
    run', steps' := run + [Next(p, fits, run[|steps|], step)], steps + [step];
    hide Next, Enabled, Init;
    assert run'[|steps|] == run[|steps|] && run'[0] == run[0];
    forall i | 0 <= i < |steps'| ensures Follows(p, fits, run', steps', i) {
      if i < |steps| {
        assert run'[i] == run[i] && run'[i + 1] == run[i + 1] && steps'[i] == steps[i];
        assert Follows(p, fits, run, steps, i);
      }
    }
  }

  /** The account's own steps and the reads leave the coordinator, the stream and all other jobs alone. */
  lemma {:induction false} OthersMoveNothing(p: string, fits: Content -> bool, s: System, step: Step)
    requires Enabled(p, s, step)
    requires !step.Schedule? && !step.TimerFires? && !step.PublishCall? && !step.Finish? && !step.Foreign?
    requires !step.RunEnds? && !step.Stop? && !step.Load? && !step.Fail?
    ensures var s' := Next(p, fits, s, step);
            && s'.coordinator == s.coordinator && s'.stream == s.stream && s'.handed == s.handed
            && s'.announced == s.announced && s'.settled == s.settled
            && (s'.queue == s.queue
                || (s.queue != [] && s'.queue == [s.queue[0].(phase := s'.queue[0].phase)] + s.queue[1..]))
  {
    hide Replay, C.Next, Action.Reduce, IpClient.Reduce, Groups;
  }

  // ---- Single steps, part by part

  lemma {:induction false} LoadInParts(p: string, fits: Content -> bool, s: System, step: Step)
    requires Enabled(p, s, step) && (step.Load? || step.Fail?)
    ensures var s' := Next(p, fits, s, step);
            var loaded := Replay(s.stream);
            && s'.coordinator == s.coordinator && s'.world == s.world && s'.tasks == s.tasks
            && s'.stream == s.stream && s'.handed == s.handed
            && s'.queue == (if step.Fail? || loaded.status != Active then s.queue[1..]
                            else [s.queue[0].(phase := Loaded(loaded.lastPublished, loaded.name))] + s.queue[1..])
  {
  }

  lemma {:induction false} ArrivalInParts(p: string, fits: Content -> bool, s: System, step: Step)
    requires Enabled(p, s, step) && (step.TimerFires? || step.PublishCall?)
    ensures var s' := Next(p, fits, s, step);
            var call := if step.TimerFires? then C.CallOf(s.coordinator.entry.value.causationIds) else C.Call(None, []);
            var job := Job(step.TimerFires?, call, Queued);
            && (step.PublishCall? ==> s'.coordinator == s.coordinator)
            && s'.queue == s.queue + [job] && s'.stream == s.stream && s'.handed == s.handed
  {
  }

  lemma {:induction false} ForeignInParts(p: string, fits: Content -> bool, s: System, e: Event)
    requires Enabled(p, s, Foreign(e))
    ensures Next(p, fits, s, Foreign(e)) == s.(stream := s.stream + [e])
  {
  }

  lemma {:induction false} FinishInParts(p: string, fits: Content -> bool, s: System, now: int)
    requires Enabled(p, s, Finish(now))
    ensures var s' := Next(p, fits, s, Finish(now));
            var ph := s.queue[0].phase;
            var decision := Decide(ph.base, ph.content, fits(ph.content), s.queue[0].call, s.serial, now);
            && s'.coordinator == s.coordinator && s'.world == s.world && s'.tasks == s.tasks && s'.queue == s.queue[1..]
            && s'.stream == s.stream + (if decision.Unchanged? then [] else [decision.event])
            && (var result := Outcome(decision, |s.stream| + 1);
                && s'.handed == s.handed + (if result.Some? then [result.value.snapshot] else [])
                && s'.announced ==
                     s.announced + (if result.Some? && result.value.changed then [result.value.snapshot] else []))
  {
  }

  lemma {:induction false} EndMovesOnlyCoordinator(p: string, fits: Content -> bool, s: System)
    requires Enabled(p, s, RunEnds)
    ensures var s' := Next(p, fits, s, RunEnds);
            && s'.queue == s.queue && s'.world == s.world && s'.tasks == s.tasks && s'.stream == s.stream
            && s'.coordinator ==
                 (if s.coordinator.inFlight > 0 then C.Next(s.coordinator, C.RunEnds) else s.coordinator)
  {
  }
}

/** The final state always wins: whatever interleaves, a provider whose published groups are out of date
still has something coming that will bring them up to date. */
module FinalState {
  import opened Options
  import opened Snapshot
  import opened TraefikProvider
  import opened Publication
  import Action
  import IpClient
  import C = Coordinator
  import Versions

  /** What the published snapshot says now; before the first publication it says nothing. */
  function PublishedGroups(stream: seq<Event>): seq<Group> {
    var last := Replay(stream).lastPublished;
    if last.Some? then last.value.content.groups else []
  }

  /** A timer is armed, or the run in flight will arm one. */
  predicate Armed(c: C.State) {
    c.entry.Some? && (c.entry.value.timer || c.entry.value.dirty)
  }

  function Unread(w: World, t: Task): set<string> {
    if t.listed then t.todo else w.actions.Keys
  }

  /** The `schedule` at the end of this task will name the provider, unless an action moves under its reads. */
  ghost predicate Covers(p: string, w: World, t: Task) {
    p in t.found || exists a :: a in Unread(w, t) && p in Target(t, ActionIn(w, a))
  }

  ghost predicate Covered(p: string, w: World, tasks: map<nat, Task>) {
    exists t :: t in tasks && Covers(p, w, tasks[t])
  }

  ghost predicate Signalled(p: string, s: System) {
    Armed(s.coordinator) || Covered(p, s.world, s.tasks)
  }

  ghost predicate HasRun(queue: seq<Job>, from: nat) {
    exists i :: from <= i < |queue| && queue[i].isRun
  }

  /** What the job has read so far is still so, as far as it concerns the provider. */
  ghost predicate Agree(p: string, w: World, phase: Phase) {
    match phase
    case ReadingActions(_, _, actions, todo) =>
      && (forall a :: a in actions ==> Member(actions[a], p) == Member(ActionIn(w, a), p))
      && (forall a :: a in w.actions && a !in actions && a !in todo ==> Member(w.actions[a], p).None?)
    case ReadingDevices(_, _, actions, devices, todo) =>
      && Members(World(actions, map[]), p) == Members(w, p)
      && (forall m :: m in Members(w, p) ==> m.device in devices || m.device in todo)
      && (forall m :: m in Members(w, p) && m.device in devices ==>
            InfoOf(m.device, devices[m.device]) == InfoIn(w)(m.device))
    case Built(_, content) => content.groups == Groups(w, p)
    case _ => true
  }

  /** The provider is active, its current snapshot fits, and what is published is something else. */
  ghost predicate OutOfDate(p: string, fits: Content -> bool, w: World, stream: seq<Event>) {
    var state := Replay(stream);
    && state.status == Active
    && fits(Content(state.name, Groups(w, p)))
    && PublishedGroups(stream) != Groups(w, p)
  }

  function NameRead(phase: Phase): Option<string> {
    match phase
    case Queued => None
    case Built(_, content) => Some(content.providerName)
    case _ => Some(phase.name)
  }

  /** Whatever name the job has read, the current groups fit under it. */
  ghost predicate Fitting(p: string, fits: Content -> bool, w: World, phase: Phase) {
    NameRead(phase).Some? ==> fits(Content(NameRead(phase).value, Groups(w, p)))
  }

  /** A run has not read yet, or what the head run publishes will fit. */
  ghost predicate WillShow(p: string, fits: Content -> bool, w: World, queue: seq<Job>) {
    HasRun(queue, 1) || (queue != [] && queue[0].isRun && Fitting(p, fits, w, queue[0].phase))
  }

  /** What the head has read, if it is outdated, will be looked at again: by whoever is signalled, or by a run
      that has not read yet. So will what is published, if it is outdated, unless the promise has `lapsed`. */
  ghost predicate FreshParts(p: string, fits: Content -> bool, signalled: bool, w: World, queue: seq<Job>,
          stream: seq<Event>, lapsed: bool) {
    && (queue != [] && !Agree(p, w, queue[0].phase) ==> signalled || HasRun(queue, 1))
    && (!lapsed && OutOfDate(p, fits, w, stream) ==> signalled || WillShow(p, fits, w, queue))
  }

  ghost predicate OnlyHeadReads(queue: seq<Job>) {
    forall i :: 1 <= i < |queue| ==> queue[i].phase.Queued?
  }

  /** The queue holds the one run that is in flight, if its publish has not settled. */
  ghost predicate RunInv(s: System) {
    Runs(s.coordinator, s.queue, s.settled)
  }

  ghost predicate Fresh(p: string, fits: Content -> bool, s: System, lapsed: bool) {
    !s.coordinator.stopped ==> FreshParts(p, fits, Signalled(p, s), s.world, s.queue, s.stream, lapsed)
  }

  /** The provider's new name, if it gets this one, makes room for groups that are not published. */
  ghost predicate MakesRoom(p: string, fits: Content -> bool, s: System, name: string) {
    var state := Replay(s.stream);
    && state.status == Active
    && fits(Content(name, Groups(s.world, p)))
    && PublishedGroups(s.stream) != Groups(s.world, p)
  }

  /** The steps that lose the promise: a run fails, or a rename makes room, when the published groups are not the
      current ones and nobody is left who would publish them. */
  ghost predicate Breaks(p: string, fits: Content -> bool, s: System, step: Step) {
    match step
    case Fail =>
      s.queue != [] && s.queue[0].isRun && OutOfDate(p, fits, s.world, s.stream) && !Signalled(p, s)
    case Foreign(e) =>
      e.Renamed? && MakesRoom(p, fits, s, e.name) && !Signalled(p, s) && !WillShow(p, fits, s.world, s.queue)
    case _ => false
  }

  // ---- Account events

  /** The two worlds are the same to this provider. */
  ghost predicate Invisible(p: string, w: World, w': World) {
    && (forall a :: Member(ActionIn(w, a), p) == Member(ActionIn(w', a), p))
    && (forall m :: m in Members(w, p) ==> InfoIn(w)(m.device) == InfoIn(w')(m.device))
  }

  lemma {:induction false} InvisibleMembers(p: string, w: World, w': World)
    requires forall a :: Member(ActionIn(w, a), p) == Member(ActionIn(w', a), p)
    ensures Members(w', p) == Members(w, p)
  {
    forall m | m in Members(w, p) ensures m in Members(w', p) {
      var a :| a in w.actions && Member(w.actions[a], p) == Some(m);
      assert Member(ActionIn(w', a), p) == Some(m);
    }
    forall m | m in Members(w', p) ensures m in Members(w, p) {
      var a :| a in w'.actions && Member(w'.actions[a], p) == Some(m);
      assert Member(ActionIn(w, a), p) == Some(m);
    }
  }

  lemma {:induction false} InvisibleGroups(p: string, w: World, w': World)
    requires Invisible(p, w, w')
    ensures Members(w', p) == Members(w, p) && Groups(w', p) == Groups(w, p)
  {
    InvisibleMembers(p, w, w');
    GroupsAgree(Members(w, p), InfoIn(w), InfoIn(w'));
  }

  lemma {:induction false} InvisibleKeepsActions(p: string, w: World, w': World, phase: Phase)
    requires Invisible(p, w, w') && phase.ReadingActions? && Agree(p, w, phase)
    ensures Agree(p, w', phase)
  {
    forall a | a in w'.actions && a !in phase.actions && a !in phase.todo ensures Member(w'.actions[a], p).None? {
      assert Member(ActionIn(w, a), p) == Member(ActionIn(w', a), p);
    }
    forall a | a in phase.actions ensures Member(phase.actions[a], p) == Member(ActionIn(w', a), p) {
      assert Member(ActionIn(w, a), p) == Member(ActionIn(w', a), p);
    }
  }

  lemma {:induction false} InvisibleKeeps(p: string, w: World, w': World, phase: Phase)
    requires Invisible(p, w, w')
    ensures Groups(w', p) == Groups(w, p)
    ensures Agree(p, w, phase) ==> Agree(p, w', phase)
  {
    InvisibleGroups(p, w, w');
    if phase.ReadingActions? && Agree(p, w, phase) {
      InvisibleKeepsActions(p, w, w', phase);
    }
  }

  lemma {:induction false} ActionInvisible(p: string, w: World, a: string, e: Action.Event)
    requires var before := ActionIn(w, a);
             Member(before, p) == Member(Action.Reduce(before, e), p)
    ensures Invisible(p, w, w.(actions := w.actions[a := Action.Reduce(ActionIn(w, a), e)]))
  {
  }

  lemma {:induction false} QuietDeviceEvent(d: IpClient.State, id: string, e: IpClient.Event)
    requires !Notifies(e) && (e.Registered? ==> d == IpClient.INITIAL)
    ensures InfoOf(id, IpClient.Reduce(d, e)) == InfoOf(id, d)
  {
  }

  lemma {:induction false} DeviceInvisible(p: string, w: World, d: string, e: IpClient.Event)
    requires (e.Registered? ==> d !in w.devices) && (!Notifies(e) || p !in ProvidersOfDevice(w, d))
    ensures Invisible(p, w, w.(devices := w.devices[d := IpClient.Reduce(Device(w, d), e)]))
  {
    var w' := w.(devices := w.devices[d := IpClient.Reduce(Device(w, d), e)]);
    forall m | m in Members(w, p) ensures InfoIn(w)(m.device) == InfoIn(w')(m.device) {
      if Notifies(e) {
        NotAMember(p, w, d, m);
      } else if m.device == d {
        QuietDeviceEvent(Device(w, d), d, e);
      }
    }
  }

  lemma {:induction false} DeviceEventKeepsFresh(p: string, fits: Content -> bool, s: System, step: Step, lapsed: bool)
    requires Fresh(p, fits, s, lapsed) && Enabled(p, s, step) && step.DeviceEvent?
    ensures Fresh(p, fits, Next(p, fits, s, step), lapsed)
  {
    hide Replay, C.Next, Action.Reduce, Groups;
    var s' := Next(p, fits, s, step);
    var w := s.world;
    assert s'.world.actions == w.actions;
    forall t: Task | Covers(p, w, t) ensures Covers(p, s'.world, t) {
      if p !in t.found {
        var x :| x in Unread(w, t) && p in Target(t, ActionIn(w, x));
        assert x in Unread(s'.world, t) && p in Target(t, ActionIn(s'.world, x));
      }
    }
    if Notifies(step.deviceEvent) && p in ProvidersOfDevice(w, step.device) {
      var a :| a in w.actions && p in DeviceTarget(w.actions[a], step.device);
      var task := s'.tasks[step.task];
      assert a in Unread(s'.world, task) && p in Target(task, ActionIn(s'.world, a));
      assert Covered(p, s'.world, s'.tasks);
    } else {
      DeviceInvisible(p, w, step.device, step.deviceEvent);
      CoverageGrows(p, s, s');
      if s.queue != [] {
        InvisibleKeeps(p, w, s'.world, s.queue[0].phase);
      } else {
        InvisibleKeeps(p, w, s'.world, Queued);
      }
    }
  }

  lemma {:induction false} CoverageGrows(p: string, s: System, s': System)
    requires forall t :: t in s.tasks ==> t in s'.tasks && s'.tasks[t] == s.tasks[t]
    requires forall t :: t in s.tasks && Covers(p, s.world, s.tasks[t]) ==> Covers(p, s'.world, s.tasks[t])
    ensures Covered(p, s.world, s.tasks) ==> Covered(p, s'.world, s'.tasks)
  {
  }

  lemma {:induction false} CoverageSurvives(p: string, w: World, t: Task, a: string, after: Action.State)
    requires Covers(p, w, t)
    requires Target(t, ActionIn(w, a)) <= Target(t, after) || p !in DeliveryTarget(ActionIn(w, a))
    ensures Covers(p, w.(actions := w.actions[a := after]), t)
  {
    var w' := w.(actions := w.actions[a := after]);
    if p !in t.found {
      var x :| x in Unread(w, t) && p in Target(t, ActionIn(w, x));
      assert x in Unread(w', t) && p in Target(t, ActionIn(w', x));
    }
  }

  lemma {:induction false} ActionEventKeepsFresh(p: string, fits: Content -> bool, s: System, step: Step, lapsed: bool)
    requires Fresh(p, fits, s, lapsed) && Enabled(p, s, step) && step.ActionEvent?
    ensures Fresh(p, fits, Next(p, fits, s, step), lapsed)
  {
    hide Replay, C.Next, IpClient.Reduce, Groups;
    var s' := Next(p, fits, s, step);
    var a := step.action;
    var before := ActionIn(s.world, a);
    var after := Action.Reduce(before, step.actionEvent);
    if ActionNotifies(step.actionEvent) && p in DeliveryTarget(before) + DeliveryTarget(after) {
      var task := s'.tasks[step.task];
      if p !in DeliveryTarget(before) {
        assert a in Unread(s'.world, task) && p in Target(task, ActionIn(s'.world, a));
      }
      assert Covers(p, s'.world, s'.tasks[step.task]);
      assert Covered(p, s'.world, s'.tasks);
    } else {
      ActionInvisible(p, s.world, a, step.actionEvent);
      forall t | t in s.tasks && Covers(p, s.world, s.tasks[t]) ensures Covers(p, s'.world, s.tasks[t]) {
        CoverageSurvives(p, s.world, s.tasks[t], a, after);
      }
      CoverageGrows(p, s, s');
      InvisibleKeeps(p, s.world, s'.world, if s.queue != [] then s.queue[0].phase else Queued);
    }
  }

  // ---- Tasks and the coordinator

  lemma {:induction false} TaskStepKeepsFresh(p: string, fits: Content -> bool, s: System, step: Step, lapsed: bool)
    requires Fresh(p, fits, s, lapsed) && Enabled(p, s, step) && (step.ListActions? || step.ReadTaskAction?)
    ensures Fresh(p, fits, Next(p, fits, s, step), lapsed)
  {
    var s' := Next(p, fits, s, step);
    var before, after := s.tasks[step.task], s'.tasks[step.task];
    if Covers(p, s.world, before) {
      if p !in before.found {
        var a :| a in Unread(s.world, before) && p in Target(before, ActionIn(s.world, a));
        assert step.ListActions? || a != step.action ==>
                 a in Unread(s.world, after) && p in Target(after, ActionIn(s.world, a));
      }
      assert Covers(p, s'.world, after);
    }
    if Covered(p, s.world, s.tasks) {
      var t :| t in s.tasks && Covers(p, s.world, s.tasks[t]);
      assert t in s'.tasks && Covers(p, s'.world, s'.tasks[t]);
    }
  }

  lemma {:induction false} ScheduleKeepsFresh(p: string, fits: Content -> bool, s: System, step: Step, lapsed: bool)
    requires Fresh(p, fits, s, lapsed) && Enabled(p, s, step) && step.Schedule?
    ensures Fresh(p, fits, Next(p, fits, s, step), lapsed)
  {
    var s' := Next(p, fits, s, step);
    if p !in s.tasks[step.task].found && Covered(p, s.world, s.tasks) {
      var t :| t in s.tasks && Covers(p, s.world, s.tasks[t]);
      assert t in s'.tasks && Covers(p, s'.world, s'.tasks[t]);
    }
  }

  lemma {:induction false} ArrivalKeepsFresh(p: string, fits: Content -> bool, s: System, step: Step, lapsed: bool)
    requires Fresh(p, fits, s, lapsed) && Enabled(p, s, step) && (step.TimerFires? || step.PublishCall?)
    ensures Fresh(p, fits, Next(p, fits, s, step), lapsed)
  {
    var s' := Next(p, fits, s, step);
    var job := s'.queue[|s.queue|];
    RunStays(s.queue, job);
    ArrivalStillShows(p, fits, s.world, s.queue, job);
    hide WillShow, Agree, OutOfDate;
    if step.TimerFires? && s.queue != [] {
      assert s'.queue[|s.queue|].isRun;
    }
  }

  lemma {:induction false} RunStays(queue: seq<Job>, job: Job)
    ensures HasRun(queue, 0) ==> HasRun(queue + [job], 0)
    ensures HasRun(queue, 1) ==> HasRun(queue + [job], 1)
  {
    if i :| 0 <= i < |queue| && queue[i].isRun {
      assert (queue + [job])[i].isRun;
    }
    if i :| 1 <= i < |queue| && queue[i].isRun {
      assert (queue + [job])[i].isRun;
    }
  }

  lemma {:induction false} ArrivalStillShows(p: string, fits: Content -> bool, w: World, queue: seq<Job>, job: Job)
    requires job.phase.Queued?
    ensures WillShow(p, fits, w, queue) ==> WillShow(p, fits, w, queue + [job])
    ensures job.isRun ==> WillShow(p, fits, w, queue + [job])
  {
    RunStays(queue, job);
    assert (queue + [job])[|queue|] == job;
    assert queue != [] ==> (queue + [job])[0] == queue[0];
  }

  lemma {:induction false} EndStaysArmed(c: C.State)
    requires C.Inv(c) && c.inFlight > 0 && !c.stopped && Armed(c)
    ensures Armed(C.Next(c, C.RunEnds))
  {
  }

  lemma {:induction false} EndStaysSignalled(p: string, fits: Content -> bool, s: System)
    requires C.Inv(s.coordinator) && Enabled(p, s, RunEnds) && !s.coordinator.stopped && Signalled(p, s)
    ensures Signalled(p, Next(p, fits, s, RunEnds))
  {
    EndMovesOnlyCoordinator(p, fits, s);
    if s.coordinator.inFlight > 0 && Armed(s.coordinator) {
      EndStaysArmed(s.coordinator);
    }
  }

  lemma {:induction false} MoreSignals(p: string, fits: Content -> bool, signalled: bool, signalled': bool, w: World,
          queue: seq<Job>, stream: seq<Event>, lapsed: bool)
    requires FreshParts(p, fits, signalled, w, queue, stream, lapsed) && (signalled ==> signalled')
    ensures FreshParts(p, fits, signalled', w, queue, stream, lapsed)
  {
  }

  lemma {:induction false} StopStops(p: string, fits: Content -> bool, s: System)
    ensures Next(p, fits, s, Stop).coordinator.stopped
  {
  }

  lemma {:induction false} EndKeepsFresh(p: string, fits: Content -> bool, s: System, step: Step, lapsed: bool)
    requires Fresh(p, fits, s, lapsed) && C.Inv(s.coordinator) && Enabled(p, s, step) && (step.RunEnds? || step.Stop?)
    ensures Fresh(p, fits, Next(p, fits, s, step), lapsed)
  {
    hide Next, FreshParts, Signalled, C.Next, C.Inv;
    if step.Stop? {
      StopStops(p, fits, s);
    } else if s.coordinator.stopped {
      StoppedStays(p, fits, s, step);
    } else {
      EndMovesOnlyCoordinator(p, fits, s);
      if Signalled(p, s) {
        EndStaysSignalled(p, fits, s);
      }
      MoreSignals(p, fits, Signalled(p, s), Signalled(p, Next(p, fits, s, step)), s.world, s.queue, s.stream, lapsed);
    }
  }

  // ---- The job that holds the mutex

  lemma {:induction false} Shifted(queue: seq<Job>, phase: Phase)
    requires queue != []
    ensures HasRun(queue, 1) ==> HasRun(queue[1..], 0)
    ensures HasRun([queue[0].(phase := phase)] + queue[1..], 0) <==> HasRun(queue, 0)
    ensures HasRun([queue[0].(phase := phase)] + queue[1..], 1) <==> HasRun(queue, 1)
  {
    var queue' := [queue[0].(phase := phase)] + queue[1..];
    assert forall i :: 0 <= i < |queue| ==> queue'[i].isRun == queue[i].isRun;
    if i :| 1 <= i < |queue| && queue[i].isRun {
      assert queue[1..][i - 1].isRun && queue'[i].isRun;
    }
    if i :| 1 <= i < |queue'| && queue'[i].isRun {
      assert queue[i].isRun;
    }
    if i :| 0 <= i < |queue| && queue[i].isRun {
      assert queue'[i].isRun;
    }
    if i :| 0 <= i < |queue'| && queue'[i].isRun {
      assert queue[i].isRun;
    }
  }

  lemma {:induction false} ListedMembers(p: string, w: World, phase: Phase)
    requires phase.ReadingActions? && phase.todo == {} && Agree(p, w, phase)
    ensures Members(World(phase.actions, map[]), p) == Members(w, p)
  {
    var read := World(phase.actions, map[]);
    forall a ensures Member(ActionIn(read, a), p) == Member(ActionIn(w, a), p) {
      if a !in phase.actions && a in w.actions {
        assert Member(w.actions[a], p).None?;
      }
    }
    InvisibleMembers(p, w, read);
  }

  lemma {:induction false} BuiltAgrees(p: string, w: World, phase: Phase)
    requires phase.ReadingDevices? && phase.todo == {} && Agree(p, w, phase)
    ensures Agree(p, w, Built(phase.base, Content(phase.name, Groups(World(phase.actions, phase.devices), p))))
  {
    var read := World(phase.actions, phase.devices);
    assert Members(read, p) == Members(World(phase.actions, map[]), p);
    GroupsAgree(Members(w, p), InfoIn(w), InfoIn(read));
  }

  lemma {:induction false} ListingAgrees(p: string, w: World, ph: Phase)
    requires ph.Loaded?
    ensures Agree(p, w, ReadingActions(ph.base, ph.name, map[], w.actions.Keys))
  {
  }

  lemma {:induction false} ReadActionAgrees(p: string, w: World, ph: Phase, a: string)
    requires ph.ReadingActions? && Agree(p, w, ph)
    ensures Agree(p, w, ReadingActions(ph.base, ph.name, ph.actions[a := ActionIn(w, a)], ph.todo - {a}))
  {
  }

  lemma {:induction false} StartDevicesAgrees(p: string, w: World, ph: Phase)
    requires ph.ReadingActions? && ph.todo == {} && Agree(p, w, ph)
    ensures Agree(p, w, ReadingDevices(ph.base, ph.name, ph.actions, map[], MemberDevices(ph.actions, p)))
  {
    ListedMembers(p, w, ph);
    forall m | m in Members(w, p) ensures m.device in MemberDevices(ph.actions, p) {}
  }

  lemma {:induction false} ReadDeviceAgrees(p: string, w: World, ph: Phase, d: string)
    requires ph.ReadingDevices? && Agree(p, w, ph)
    ensures Agree(p, w, ReadingDevices(ph.base, ph.name, ph.actions, ph.devices[d := Device(w, d)], ph.todo - {d}))
  {
    hide Members, InfoOf;
  }

  /** Reading on, with the account standing still for one step, never turns agreement into disagreement. */
  lemma {:induction false} ReadingAgrees(p: string, fits: Content -> bool, s: System, step: Step)
    requires Enabled(p, s, step)
    requires step.ListForContent? || step.ReadAction? || step.StartDevices? || step.ReadDevice? || step.Build?
    requires Agree(p, s.world, s.queue[0].phase)
    ensures Agree(p, s.world, Next(p, fits, s, step).queue[0].phase)
  {
    hide Members, Replay, Agree, InfoOf, Groups;
    var w, ph := s.world, s.queue[0].phase;
    match step
    case ListForContent => ListingAgrees(p, w, ph);
    case ReadAction(a) => ReadActionAgrees(p, w, ph, a);
    case StartDevices => StartDevicesAgrees(p, w, ph);
    case ReadDevice(d) => ReadDeviceAgrees(p, w, ph, d);
    case Build => BuiltAgrees(p, w, ph);
  }

  lemma {:induction false} ReadingKeepsFresh(p: string, fits: Content -> bool, s: System, step: Step, lapsed: bool)
    requires Fresh(p, fits, s, lapsed) && Enabled(p, s, step)
    requires step.ListForContent? || step.ReadAction? || step.StartDevices? || step.ReadDevice? || step.Build?
    ensures Fresh(p, fits, Next(p, fits, s, step), lapsed)
  {
    hide Next, Agree, FreshParts, Covered, Armed, Enabled;
    ReadingMovesPhase(p, fits, s, step);
    if Agree(p, s.world, s.queue[0].phase) {
      ReadingAgrees(p, fits, s, step);
    }
    ReadingKeepsName(p, fits, s, step);
    PhaseKeepsFresh(p, fits, Signalled(p, s), s.world, s.queue, Next(p, fits, s, step).queue[0].phase, s.stream,
                    lapsed);
  }

  lemma {:induction false} PhaseKeepsFresh(p: string, fits: Content -> bool, signalled: bool, w: World, queue: seq<Job>,
          phase: Phase, stream: seq<Event>, lapsed: bool)
    requires queue != [] && (Agree(p, w, queue[0].phase) ==> Agree(p, w, phase))
    requires NameRead(phase) == NameRead(queue[0].phase)
    ensures FreshParts(p, fits, signalled, w, queue, stream, lapsed) ==>
              FreshParts(p, fits, signalled, w, [queue[0].(phase := phase)] + queue[1..], stream, lapsed)
  {
    Shifted(queue, phase);
    hide HasRun, Agree, OutOfDate;
  }

  lemma {:induction false} ReadingKeepsName(p: string, fits: Content -> bool, s: System, step: Step)
    requires Enabled(p, s, step)
    requires step.ListForContent? || step.ReadAction? || step.StartDevices? || step.ReadDevice? || step.Build?
    ensures NameRead(Next(p, fits, s, step).queue[0].phase) == NameRead(s.queue[0].phase)
  {
    hide Groups, MemberDevices, Replay;
  }

  lemma {:induction false} ReadingMovesPhase(p: string, fits: Content -> bool, s: System, step: Step)
    requires Enabled(p, s, step)
    requires step.ListForContent? || step.ReadAction? || step.StartDevices? || step.ReadDevice? || step.Build?
    ensures var s' := Next(p, fits, s, step);
            && s.queue != [] && s'.queue != []
            && s' == s.(queue := [s.queue[0].(phase := s'.queue[0].phase)] + s.queue[1..])
  {
    hide Groups, MemberDevices, ActionIn, Snapshot.Device;
  }

  /** The head leaves: whoever comes next has read nothing yet. */
  lemma {:induction false} HeadLeavesFresh(p: string, fits: Content -> bool, signalled: bool, w: World, queue: seq<Job>,
          stream: seq<Event>, lapsed: bool)
    requires queue != [] && OnlyHeadReads(queue)
    requires !lapsed && OutOfDate(p, fits, w, stream) ==> signalled || HasRun(queue, 1)
    ensures FreshParts(p, fits, signalled, w, queue[1..], stream, lapsed)
  {
    if HasRun(queue, 1) {
      RestShows(p, fits, w, queue);
    }
    hide WillShow, OutOfDate, HasRun;
    if |queue| > 1 {
      assert queue[1..][0] == queue[1];
    }
  }

  lemma {:induction false} RestShows(p: string, fits: Content -> bool, w: World, queue: seq<Job>)
    requires OnlyHeadReads(queue) && HasRun(queue, 1)
    ensures WillShow(p, fits, w, queue[1..])
  {
    var i :| 1 <= i < |queue| && queue[i].isRun;
    assert queue[1..][i - 1] == queue[i];
  }

  /** Only a run that fails takes the promise with it, and only if nobody is signalled: behind any other job the
      run that was counted on still waits. */
  lemma {:induction false} FailureKeepsFresh(p: string, fits: Content -> bool, s: System, step: Step, lapsed: bool)
    requires Fresh(p, fits, s, lapsed) && OnlyHeadReads(s.queue) && Enabled(p, s, step) && step.Fail?
    requires lapsed || !Breaks(p, fits, s, step)
    ensures Fresh(p, fits, Next(p, fits, s, step), lapsed)
  {
    LoadInParts(p, fits, s, step);
    if !s.coordinator.stopped {
      HeadLeavesFresh(p, fits, Signalled(p, s), s.world, s.queue, s.stream, lapsed);
    }
  }

  lemma {:induction false} LoadKeepsFresh(p: string, fits: Content -> bool, s: System, step: Step, lapsed: bool)
    requires Fresh(p, fits, s, lapsed) && OnlyHeadReads(s.queue) && Enabled(p, s, step) && step.Load?
    ensures Fresh(p, fits, Next(p, fits, s, step), lapsed)
  {
    LoadInParts(p, fits, s, step);
    hide Next;
    if Replay(s.stream).status != Active {
      HeadLeavesFresh(p, fits, Signalled(p, s), s.world, s.queue, s.stream, lapsed);
    } else {
      var loaded := Loaded(Replay(s.stream).lastPublished, Replay(s.stream).name);
      LoadedFresh(p, fits, Signalled(p, s), s.world, s.queue, loaded, s.stream, lapsed);
    }
  }

  /** The name is the current one, and if the current groups do not fit under that, nothing is out of date. */
  lemma {:induction false} LoadedFresh(p: string, fits: Content -> bool, signalled: bool, w: World, queue: seq<Job>,
          phase: Phase, stream: seq<Event>, lapsed: bool)
    requires queue != [] && phase.Loaded? && phase.name == Replay(stream).name
    ensures FreshParts(p, fits, signalled, w, queue, stream, lapsed) ==>
              FreshParts(p, fits, signalled, w, [queue[0].(phase := phase)] + queue[1..], stream, lapsed)
  {
    Shifted(queue, phase);
    hide HasRun, Groups, Replay;
  }

  lemma {:induction false} PublishedIsCurrent(p: string, fits: Content -> bool, w: World, stream: seq<Event>, e: Event)
    requires e.SnapshotPublished? && e.content.groups == Groups(w, p)
    ensures !OutOfDate(p, fits, w, stream + [e])
  {
    hide Groups, Replay;
    ReplayAppend(stream, e);
  }

  lemma {:induction false} TooLargeChangesNothing(p: string, fits: Content -> bool, w: World, stream: seq<Event>,
          e: Event)
    requires e.SnapshotPublishFailed?
    ensures OutOfDate(p, fits, w, stream + [e]) <==> OutOfDate(p, fits, w, stream)
  {
    hide Groups;
    ReplayAppend(stream, e);
  }

  lemma {:induction false} UnchangedIsCurrent(p: string, fits: Content -> bool, w: World, stream: seq<Event>,
          content: Content)
    requires Replay(stream).lastPublished.Some? && Replay(stream).lastPublished.value.content == content
    requires content.groups == Groups(w, p)
    ensures !OutOfDate(p, fits, w, stream)
  {
  }

  function EventOf(d: Decision): seq<Event> {
    if d.Unchanged? then [] else [d.event]
  }

  /** A job that has read the current groups publishes them, unless they do not fit under the name it has read. */
  lemma {:induction false} DecisionPublishes(p: string, fits: Content -> bool, w: World, stream: seq<Event>,
          content: Content, call: Call, serial: nat, now: int)
    requires content.groups == Groups(w, p)
    ensures var stream' :=
              stream + EventOf(Decide(Replay(stream).lastPublished, content, fits(content), call, serial, now));
            OutOfDate(p, fits, w, stream') ==> OutOfDate(p, fits, w, stream) && !fits(content)
  {
    hide OutOfDate, Groups, Replay;
    var last := Replay(stream).lastPublished;
    if last.Some? && last.value.content == content {
      UnchangedIsCurrent(p, fits, w, stream, content);
      assert stream + [] == stream;
    } else {
      var correlation := if call.cause.Some? then Caused(call.cause.value) else Generated(serial);
      if fits(content) {
        PublishedIsCurrent(p, fits, w, stream, SnapshotPublished(content, correlation, call.absorbed, now));
      } else {
        TooLargeChangesNothing(p, fits, w, stream, SnapshotPublishFailed(correlation, call.absorbed, now));
      }
    }
  }

  lemma {:induction false} DecisionKeepsFresh(p: string, fits: Content -> bool, signalled: bool, w: World,
          queue: seq<Job>, stream: seq<Event>, serial: nat, now: int, lapsed: bool)
    requires queue != [] && OnlyHeadReads(queue) && queue[0].phase.Built?
    requires FreshParts(p, fits, signalled, w, queue, stream, true)
    requires || lapsed || FreshParts(p, fits, signalled, w, queue, stream, false) || Fitting(p, fits, w, queue[0].phase)
             || queue[0].phase.content.providerName == Replay(stream).name
    ensures var content := queue[0].phase.content;
            var decision := Decide(Replay(stream).lastPublished, content, fits(content), queue[0].call, serial, now);
            FreshParts(p, fits, signalled, w, queue[1..], stream + EventOf(decision), lapsed)
  {
    var content := queue[0].phase.content;
    var stream' :=
      stream + EventOf(Decide(Replay(stream).lastPublished, content, fits(content), queue[0].call, serial, now));
    hide Groups, Replay, Decide, HasRun;
    if content.groups == Groups(w, p) {
      assert content == Content(content.providerName, Groups(w, p));
      DecisionPublishes(p, fits, w, stream, content, queue[0].call, serial, now);
    }
    HeadLeavesFresh(p, fits, signalled, w, queue, stream', lapsed);
  }

  lemma {:induction false} FinishLeavesFresh(p: string, fits: Content -> bool, s: System, step: Step, lapsed: bool)
    requires Fresh(p, fits, s, true) && OnlyHeadReads(s.queue) && Enabled(p, s, step) && step.Finish?
    requires s.queue[0].phase.base == Replay(s.stream).lastPublished
    requires || lapsed || Fresh(p, fits, s, false) || Fitting(p, fits, s.world, s.queue[0].phase)
             || s.queue[0].phase.content.providerName == Replay(s.stream).name
    ensures Fresh(p, fits, Next(p, fits, s, step), lapsed)
  {
    FinishInParts(p, fits, s, step.now);
    hide Next, FreshParts, OnlyHeadReads, Replay, Decide, Fitting, Covered, Armed;
    if !s.coordinator.stopped {
      DecisionKeepsFresh(p, fits, Signalled(p, s), s.world, s.queue, s.stream, s.serial, step.now, lapsed);
    }
  }

  lemma {:induction false} FinishKeepsFresh(p: string, fits: Content -> bool, s: System, step: Step, lapsed: bool)
    requires Fresh(p, fits, s, lapsed) && OnlyHeadReads(s.queue) && Enabled(p, s, step) && step.Finish?
    requires s.queue[0].phase.base == Replay(s.stream).lastPublished
    ensures Fresh(p, fits, Next(p, fits, s, step), lapsed)
  {
    FreshAnyway(p, fits, s, lapsed);
    hide *;
    FinishLeavesFresh(p, fits, s, step, lapsed);
  }

  lemma {:induction false} FreshAnyway(p: string, fits: Content -> bool, s: System, lapsed: bool)
    requires Fresh(p, fits, s, lapsed)
    ensures Fresh(p, fits, s, true)
  {
    hide Agree, WillShow, HasRun, OutOfDate, Signalled;
  }

  lemma {:induction false} ForeignReplay(stream: seq<Event>, e: Event)
    requires IsForeign(e) && !e.Renamed?
    ensures var state, state' := Replay(stream), Replay(stream + [e]);
            state'.lastPublished == state.lastPublished && state'.name == state.name
            && (state'.status == Active ==> state.status == Active)
  {
    ReplayAppend(stream, e);
  }

  lemma {:induction false} ForeignEventsPublishNothing(p: string, fits: Content -> bool, w: World, stream: seq<Event>,
          e: Event)
    requires IsForeign(e) && !e.Renamed? && OutOfDate(p, fits, w, stream + [e])
    ensures OutOfDate(p, fits, w, stream)
  {
    ForeignReplay(stream, e);
  }

  lemma {:induction false} RenameReplay(p: string, fits: Content -> bool, s: System, name: string)
    ensures OutOfDate(p, fits, s.world, s.stream + [Renamed(name)]) <==> MakesRoom(p, fits, s, name)
  {
    hide Groups;
    ReplayAppend(s.stream, Renamed(name));
  }

  lemma {:induction false} StreamKeepsFresh(p: string, fits: Content -> bool, s: System, step: Step, lapsed: bool)
    requires Fresh(p, fits, s, lapsed) && Enabled(p, s, step) && step.Foreign?
    requires lapsed || !Breaks(p, fits, s, step)
    ensures Fresh(p, fits, Next(p, fits, s, step), lapsed)
  {
    ForeignInParts(p, fits, s, step.event);
    var stream' := s.stream + [step.event];
    if step.event.Renamed? {
      RenameReplay(p, fits, s, step.event.name);
    } else if OutOfDate(p, fits, s.world, stream') {
      ForeignEventsPublishNothing(p, fits, s.world, s.stream, step.event);
    }
    hide Next, OutOfDate, MakesRoom, WillShow, Agree;
  }

  lemma {:induction false} StepKeepsFresh(p: string, fits: Content -> bool, s: System, step: Step, lapsed: bool)
    requires Fresh(p, fits, s, lapsed) && OnlyHeadReads(s.queue) && C.Inv(s.coordinator) && Enabled(p, s, step)
    requires s.queue != [] && s.queue[0].phase.Built? ==> s.queue[0].phase.base == Replay(s.stream).lastPublished
    requires lapsed || !Breaks(p, fits, s, step)
    ensures Fresh(p, fits, Next(p, fits, s, step), lapsed)
  {
    match step
    case DeviceEvent(_, _, _, _) => DeviceEventKeepsFresh(p, fits, s, step, lapsed);
    case ActionEvent(_, _, _) => ActionEventKeepsFresh(p, fits, s, step, lapsed);
    case ListActions(_) => TaskStepKeepsFresh(p, fits, s, step, lapsed);
    case ReadTaskAction(_, _) => TaskStepKeepsFresh(p, fits, s, step, lapsed);
    case Schedule(_, _) => ScheduleKeepsFresh(p, fits, s, step, lapsed);
    case TimerFires => ArrivalKeepsFresh(p, fits, s, step, lapsed);
    case PublishCall => ArrivalKeepsFresh(p, fits, s, step, lapsed);
    case Load => LoadKeepsFresh(p, fits, s, step, lapsed);
    case Fail => FailureKeepsFresh(p, fits, s, step, lapsed);
    case Finish(_) => FinishKeepsFresh(p, fits, s, step, lapsed);
    case RunEnds => EndKeepsFresh(p, fits, s, step, lapsed);
    case Stop => EndKeepsFresh(p, fits, s, step, lapsed);
    case Foreign(_) => StreamKeepsFresh(p, fits, s, step, lapsed);
    case _ => ReadingKeepsFresh(p, fits, s, step, lapsed);
  }

  // ---- Who runs

  /** The part of the machine the run bookkeeping looks at. */
  ghost predicate Runs(c: C.State, queue: seq<Job>, settled: bool) {
    && C.Inv(c)
    && (forall i, j :: 0 <= i < j < |queue| ==> !(queue[i].isRun && queue[j].isRun))
    && (settled ==> !HasRun(queue, 0))
    && (c.inFlight == 1 <==> settled || HasRun(queue, 0))
  }

  lemma {:induction false} TimerKeepsRuns(c: C.State, queue: seq<Job>, settled: bool, job: Job)
    requires Runs(c, queue, settled) && C.Enabled(c, C.TimerFires) && !c.stopped && job.isRun
    ensures Runs(C.Next(c, C.TimerFires), queue + [job], settled)
  {
    C.StepKeepsInv(c, C.TimerFires);
    assert (queue + [job])[|queue|].isRun;
    assert forall i :: 0 <= i < |queue| ==> !queue[i].isRun;
  }

  lemma {:induction false} CoordinatorKeepsRuns(c: C.State, queue: seq<Job>, settled: bool, step: C.Step)
    requires Runs(c, queue, settled) && C.Enabled(c, step) && !c.stopped
    ensures step.Trigger? ==> Runs(C.Next(c, step), queue, settled)
    ensures step.RunEnds? && settled ==> Runs(C.Next(c, step), queue, false)
  {
    C.StepKeepsInv(c, step);
  }

  lemma {:induction false} ArrivalKeepsRuns(c: C.State, queue: seq<Job>, settled: bool, job: Job)
    requires Runs(c, queue, settled) && !job.isRun
    ensures Runs(c, queue + [job], settled)
  {
    RunStays(queue, job);
    OnlyRunsCount(queue, job);
  }

  lemma {:induction false} HeadDoneKeepsRuns(c: C.State, queue: seq<Job>, settled: bool)
    requires Runs(c, queue, settled) && queue != []
    ensures Runs(c, queue[1..], settled || queue[0].isRun)
  {
    HeadLeaves(queue);
    assert forall i :: 0 <= i < |queue[1..]| ==> queue[1..][i] == queue[i + 1];
  }

  lemma {:induction false} PhaseKeepsRuns(c: C.State, queue: seq<Job>, settled: bool, phase: Phase)
    requires Runs(c, queue, settled) && queue != []
    ensures Runs(c, [queue[0].(phase := phase)] + queue[1..], settled)
  {
    var queue' := [queue[0].(phase := phase)] + queue[1..];
    assert forall i :: 0 <= i < |queue| ==> queue'[i].isRun == queue[i].isRun;
    Shifted(queue, phase);
  }

  lemma {:induction false} StepKeepsRun(p: string, fits: Content -> bool, s: System, step: Step)
    requires RunInv(s) && Enabled(p, s, step) && !s.coordinator.stopped
    ensures !Next(p, fits, s, step).coordinator.stopped ==> RunInv(Next(p, fits, s, step))
  {
    hide Replay, Action.Reduce, IpClient.Reduce, Groups, Decide;
    var c, queue := s.coordinator, s.queue;
    if step.TimerFires? {
      TimerKeepsRuns(c, queue, s.settled, Job(true, C.CallOf(c.entry.value.causationIds), Queued));
    } else if step.Schedule? {
      CoordinatorKeepsRuns(c, queue, s.settled, C.Trigger(step.accountId, s.tasks[step.task].cause));
    } else if step.RunEnds? {
      CoordinatorKeepsRuns(c, queue, s.settled, C.RunEnds);
    } else if step.PublishCall? {
      ArrivalKeepsRuns(c, queue, s.settled, Job(false, C.Call(None, []), Queued));
    } else if step.Finish? || step.Fail? {
      HeadDoneKeepsRuns(c, queue, s.settled);
    } else if step.Load? {
      HeadDoneKeepsRuns(c, queue, s.settled);
      PhaseKeepsRuns(c, queue, s.settled, Loaded(Replay(s.stream).lastPublished, Replay(s.stream).name));
    } else if !step.Stop? && !step.Foreign? {
      OthersMoveNothing(p, fits, s, step);
      if queue != [] {
        PhaseKeepsRuns(c, queue, s.settled, Next(p, fits, s, step).queue[0].phase);
      }
    }
  }

  lemma {:induction false} OnlyRunsCount(queue: seq<Job>, job: Job)
    requires !job.isRun
    ensures HasRun(queue + [job], 0) ==> HasRun(queue, 0)
  {
    if i :| 0 <= i < |queue + [job]| && (queue + [job])[i].isRun {
      assert queue[i].isRun;
    }
  }

  lemma {:induction false} HeadLeaves(queue: seq<Job>)
    requires queue != []
    requires forall i, j :: 0 <= i < j < |queue| ==> !(queue[i].isRun && queue[j].isRun)
    ensures queue[0].isRun ==> !HasRun(queue[1..], 0) && HasRun(queue, 0)
    ensures !queue[0].isRun ==> (HasRun(queue[1..], 0) <==> HasRun(queue, 0))
  {
    if i :| 0 <= i < |queue[1..]| && queue[1..][i].isRun {
      assert queue[i + 1].isRun;
    }
    if !queue[0].isRun {
      if i :| 0 <= i < |queue| && queue[i].isRun {
        assert queue[1..][i - 1].isRun;
      }
    }
  }

  // ---- The promise, step by step

  /** A run is in flight that will be followed by another, has not finished reading, or is about to publish
      exactly the current groups, which fit under the name it has read. */
  ghost predicate RunWillDo(p: string, fits: Content -> bool, s: System) {
    && s.coordinator.inFlight == 1
    && s.coordinator.entry.Some? && s.coordinator.entry.value.running
    && (|| s.coordinator.entry.value.dirty
        || exists i :: 0 <= i < |s.queue| && s.queue[i].isRun && JobWillDo(p, fits, s.world, s.queue[i].phase))
  }

  ghost predicate JobWillDo(p: string, fits: Content -> bool, w: World, phase: Phase) {
    Fitting(p, fits, w, phase) && (phase.Built? ==> phase.content.groups == Groups(w, p))
  }

  /** If an active provider's published groups differ from the current ones and those fit the limit, then a
      change still awaits its `schedule`, or the timer is armed, or a run is in flight that will do. */
  ghost predicate Stands(p: string, fits: Content -> bool, s: System) {
    OutOfDate(p, fits, s.world, s.stream) ==>
      || Covered(p, s.world, s.tasks)
      || (s.coordinator.entry.Some? && s.coordinator.entry.value.timer)
      || RunWillDo(p, fits, s)
  }

  /** What holds in every reachable state, whatever was promised. */
  ghost predicate Sound(p: string, fits: Content -> bool, s: System) {
    Versions.Inv(s) && Fresh(p, fits, s, true) && (!s.coordinator.stopped ==> RunInv(s))
  }

  lemma {:induction false} HeadWillDo(p: string, fits: Content -> bool, w: World, queue: seq<Job>, stream: seq<Event>)
    requires FreshParts(p, fits, false, w, queue, stream, true) && OnlyHeadReads(queue)
    requires forall i, j :: 0 <= i < j < |queue| ==> !(queue[i].isRun && queue[j].isRun)
    ensures WillShow(p, fits, w, queue) <==>
              exists i :: 0 <= i < |queue| && queue[i].isRun && JobWillDo(p, fits, w, queue[i].phase)
  {
    hide Groups;
    if i :| 0 <= i < |queue| && queue[i].isRun && JobWillDo(p, fits, w, queue[i].phase) {
      assert i > 0 ==> HasRun(queue, 1);
    }
    if WillShow(p, fits, w, queue) {
      var i :| 0 <= i < |queue| && queue[i].isRun && (i > 0 || Fitting(p, fits, w, queue[0].phase));
      assert i == 0 ==> !HasRun(queue, 1) && Agree(p, w, queue[0].phase);
      assert JobWillDo(p, fits, w, queue[i].phase);
    }
  }

  lemma {:induction false} StandsInParts(p: string, fits: Content -> bool, s: System)
    requires Sound(p, fits, s) && !s.coordinator.stopped
    ensures Stands(p, fits, s) <==> Fresh(p, fits, s, false)
  {
    if !Signalled(p, s) {
      HeadWillDo(p, fits, s.world, s.queue, s.stream);
    }
    hide OutOfDate, Agree, JobWillDo, Covered, Groups;
  }

  lemma {:induction false} RunsOnce(queue: seq<Job>)
    requires queue != [] && queue[0].isRun
    requires forall i, j :: 0 <= i < j < |queue| ==> !(queue[i].isRun && queue[j].isRun)
    ensures !HasRun(queue[1..], 0)
  {
    HeadLeaves(queue);
  }

  /** Such a step does lose it. */
  lemma {:induction false} BreakIsReal(p: string, fits: Content -> bool, s: System, step: Step)
    requires RunInv(s) && Enabled(p, s, step) && !s.coordinator.stopped && Breaks(p, fits, s, step)
    ensures !Fresh(p, fits, Next(p, fits, s, step), false)
  {
    if step.Fail? {
      LoadInParts(p, fits, s, step);
      RunsOnce(s.queue);
    } else {
      ForeignInParts(p, fits, s, step.event);
      RenameReplay(p, fits, s, step.event.name);
    }
    hide OutOfDate, Next, MakesRoom;
  }

  lemma {:induction false} StepKeepsSound(p: string, fits: Content -> bool, s: System, step: Step)
    requires Sound(p, fits, s) && Enabled(p, s, step)
    ensures Sound(p, fits, Next(p, fits, s, step))
  {
    hide Next, Enabled, FreshParts, RunInv, Breaks;
    Versions.StepKeepsInv(p, fits, s, step);
    if s.coordinator.stopped {
      StoppedStays(p, fits, s, step);
    } else {
      RunsAreCoordinated(s);
      StepKeepsFresh(p, fits, s, step, true);
      StepKeepsRun(p, fits, s, step);
    }
  }

  lemma {:induction false} RunsAreCoordinated(s: System)
    requires RunInv(s)
    ensures C.Inv(s.coordinator)
  {
  }

  lemma {:induction false} StoppedStays(p: string, fits: Content -> bool, s: System, step: Step)
    requires s.coordinator.stopped && Enabled(p, s, step)
    ensures Next(p, fits, s, step).coordinator.stopped
  {
    hide Replay, Action.Reduce, IpClient.Reduce, Groups, Decide;
  }

  /** Where the promise stands, a step keeps it exactly if it is none of those that break it. */
  lemma {:induction false} StepIsExact(p: string, fits: Content -> bool, s: System, step: Step)
    requires Sound(p, fits, s) && Stands(p, fits, s) && Enabled(p, s, step)
    requires !Next(p, fits, s, step).coordinator.stopped
    ensures Stands(p, fits, Next(p, fits, s, step)) <==> !Breaks(p, fits, s, step)
  {
    hide Next, Enabled, FreshParts, RunInv, Breaks, Stands;
    if s.coordinator.stopped {
      StoppedStays(p, fits, s, step);
    }
    StepKeepsSound(p, fits, s, step);
    StandsInParts(p, fits, s);
    StandsInParts(p, fits, Next(p, fits, s, step));
    RunsAreCoordinated(s);
    if Breaks(p, fits, s, step) {
      BreakIsReal(p, fits, s, step);
    } else {
      StepKeepsFresh(p, fits, s, step, false);
    }
  }

  // ---- Whole runs

  lemma {:induction false} InitSound(p: string, fits: Content -> bool, s: System)
    requires Init(p, s)
    ensures Sound(p, fits, s) && Stands(p, fits, s) && !s.coordinator.stopped
  {
    Versions.InitInv(p, s);
    var name :| s.stream == [Created(name)];
    ReplayAppend([], Created(name));
    assert s.stream == [] + [Created(name)];
    assert Members(s.world, p) == {};
    NoMembersNoGroups(Members(s.world, p), InfoIn(s.world));
  }

  lemma {:induction false} NoMembersNoGroups(members: set<Membership>, info: string -> Option<Info>)
    requires members == {}
    ensures GroupsOf(members, info) == []
  {
    assert Keys(members, info) == {};
  }

  lemma {:induction false} InvHolds(p: string, fits: Content -> bool, run: seq<System>, steps: seq<Step>, k: nat)
    requires IsRun(p, fits, run, steps) && k <= |steps|
    ensures Sound(p, fits, run[k])
    decreases k
  {
    hide Sound, Next, Enabled, Init;
    if k == 0 {
      InitSound(p, fits, run[0]);
    } else {
      InvHolds(p, fits, run, steps, k - 1);
      assert Follows(p, fits, run, steps, k - 1);
      StepKeepsSound(p, fits, run[k - 1], steps[k - 1]);
    }
  }

  lemma {:induction false} NotStoppedBefore(p: string, fits: Content -> bool, run: seq<System>, steps: seq<Step>,
          i: nat, j: nat)
    requires IsRun(p, fits, run, steps) && i <= j <= |steps| && !run[j].coordinator.stopped
    ensures !run[i].coordinator.stopped
    decreases j - i
  {
    hide Next, Enabled, Init;
    if i < j {
      NotStoppedBefore(p, fits, run, steps, i + 1, j);
      assert Follows(p, fits, run, steps, i);
      if run[i].coordinator.stopped {
        StoppedStays(p, fits, run[i], steps[i]);
      }
    }
  }

  lemma {:induction false} StandsNext(p: string, fits: Content -> bool, run: seq<System>, steps: seq<Step>, i: nat)
    requires IsRun(p, fits, run, steps) && i < |steps| && !run[i + 1].coordinator.stopped && Stands(p, fits, run[i])
    ensures Stands(p, fits, run[i + 1]) <==> !Breaks(p, fits, run[i], steps[i])
  {
    hide Next, Enabled, Init, Stands, Sound, Breaks;
    InvHolds(p, fits, run, steps, i);
    assert Follows(p, fits, run, steps, i);
    StepIsExact(p, fits, run[i], steps[i]);
  }

  /** From any reachable state in which the promise stands, and it stands at the start, it stands for as long as
      no step breaks it and the coordinator is not stopped. */
  lemma {:induction false} FinalStateWins(p: string, fits: Content -> bool, run: seq<System>, steps: seq<Step>, i: nat,
          j: nat)
    requires IsRun(p, fits, run, steps) && i <= j <= |steps| && !run[j].coordinator.stopped
    requires i == 0 || Stands(p, fits, run[i])
    requires forall k :: i <= k < j ==> !Breaks(p, fits, run[k], steps[k])
    ensures Stands(p, fits, run[j])
    decreases j
  {
    hide IsRun, Stands, Breaks, Follows;
    if i == j {
      StandsAtFirst(p, fits, run, steps);
    } else {
      NotStoppedBefore(p, fits, run, steps, j - 1, j);
      FinalStateWins(p, fits, run, steps, i, j - 1);
      StandsNext(p, fits, run, steps, j - 1);
    }
  }

  lemma {:induction false} StandsAtFirst(p: string, fits: Content -> bool, run: seq<System>, steps: seq<Step>)
    requires IsRun(p, fits, run, steps)
    ensures Stands(p, fits, run[0])
  {
    hide Init, Stands;
    InitSound(p, fits, run[0]);
  }

  /** And those steps are all there is to it: the promise stands throughout a run if and only if none of its
      steps is a run's failure, or a rename that makes room, with nobody left who would publish. */
  lemma {:induction false} PromiseIsExact(p: string, fits: Content -> bool, run: seq<System>, steps: seq<Step>)
    requires IsRun(p, fits, run, steps) && !run[|steps|].coordinator.stopped
    ensures (forall k :: 0 <= k <= |steps| ==> Stands(p, fits, run[k])) <==>
            (forall k :: 0 <= k < |steps| ==> !Breaks(p, fits, run[k], steps[k]))
  {
    hide Init, Stands, Breaks, Follows;
    if forall k :: 0 <= k < |steps| ==> !Breaks(p, fits, run[k], steps[k]) {
      forall k | 0 <= k <= |steps| ensures Stands(p, fits, run[k]) {
        NotStoppedBefore(p, fits, run, steps, k, |steps|);
        FinalStateWins(p, fits, run, steps, 0, k);
      }
    }
    if forall k :: 0 <= k <= |steps| ==> Stands(p, fits, run[k]) {
      forall k | 0 <= k < |steps| ensures !Breaks(p, fits, run[k], steps[k]) {
        NotStoppedBefore(p, fits, run, steps, k + 1, |steps|);
        StandsNext(p, fits, run, steps, k);
      }
    }
  }

  /** When a run fails, the promise stands afterwards exactly if what is published was not out of date, or a
      change awaits its `schedule`, or the coordinator has been triggered since the run began. */
  lemma {:induction false} FailedRunIsExact(p: string, fits: Content -> bool, run: seq<System>, steps: seq<Step>)
    requires IsRun(p, fits, run, steps)
    requires var s := run[|steps|]; !s.coordinator.stopped && s.queue != [] && s.queue[0].isRun
    ensures var s := run[|steps|];
            && s.coordinator.entry.Some?
            && (Stands(p, fits, Next(p, fits, s, Fail)) <==>
                || !OutOfDate(p, fits, s.world, s.stream)
                || Covered(p, s.world, s.tasks)
                || s.coordinator.entry.value.dirty)
  {
    var s := run[|steps|];
    hide Next, OutOfDate, Covered, IsRun, Agree, JobWillDo;
    InvHolds(p, fits, run, steps, |steps|);
    RunningEntry(s);
    LoadInParts(p, fits, s, Fail);
    RunsOnce(s.queue);
  }

  lemma {:induction false} RunningEntry(s: System)
    requires RunInv(s) && !s.coordinator.stopped && s.queue != [] && s.queue[0].isRun
    ensures var c := s.coordinator;
            c.inFlight == 1 && c.entry.Some? && c.entry.value.running && !c.entry.value.timer
  {
  }

  /** When the provider is renamed, what is published is out of date afterwards exactly if the current groups are
      not the published ones and fit under the new name; and the promise stands afterwards exactly if that is
      not so, or somebody is still there who will publish them. */
  lemma {:induction false} RenameIsExact(p: string, fits: Content -> bool, run: seq<System>, steps: seq<Step>,
          name: string)
    requires IsRun(p, fits, run, steps) && !run[|steps|].coordinator.stopped
    ensures var s := run[|steps|];
            var s' := Next(p, fits, s, Foreign(Renamed(name)));
            && (OutOfDate(p, fits, s'.world, s'.stream) <==> MakesRoom(p, fits, s, name))
            && (Stands(p, fits, s') <==>
                || !MakesRoom(p, fits, s, name)
                || Covered(p, s.world, s.tasks)
                || (s.coordinator.entry.Some? && s.coordinator.entry.value.timer)
                || RunWillDo(p, fits, s))
  {
    var s := run[|steps|];
    hide Next, OutOfDate, Covered, IsRun, MakesRoom, JobWillDo;
    ForeignInParts(p, fits, s, Renamed(name));
    RenameReplay(p, fits, s, name);
  }

  /** What restores a promise that was lost, and keeps one that was not: a publish that completes, if the current
      groups fit under the name it had read, or that is the current name. */
  lemma {:induction false} PublishRestores(p: string, fits: Content -> bool, run: seq<System>, steps: seq<Step>,
          now: int)
    requires IsRun(p, fits, run, steps) && !run[|steps|].coordinator.stopped
    requires var s := run[|steps|];
             && Enabled(p, s, Finish(now))
             && (s.queue[0].phase.content.providerName == Replay(s.stream).name
                 || Fitting(p, fits, s.world, s.queue[0].phase))
    ensures Stands(p, fits, Next(p, fits, run[|steps|], Finish(now)))
  {
    var s := run[|steps|];
    InvHolds(p, fits, run, steps, |steps|);
    FinishStands(p, fits, s, Finish(now));
  }

  lemma {:induction false} FinishStands(p: string, fits: Content -> bool, s: System, step: Step)
    requires Sound(p, fits, s) && Enabled(p, s, step) && step.Finish? && !s.coordinator.stopped
    requires s.queue[0].phase.content.providerName == Replay(s.stream).name
             || Fitting(p, fits, s.world, s.queue[0].phase)
    ensures Stands(p, fits, Next(p, fits, s, step))
  {
    FinishInParts(p, fits, s, step.now);
    hide Next, Fresh, Stands, RunInv, Replay, Groups;
    FinishLeavesFresh(p, fits, s, step, false);
    StepKeepsSound(p, fits, s, step);
    StandsInParts(p, fits, Next(p, fits, s, step));
  }

  /** So once nothing is pending, what is published is the current state: provided no step has broken the promise
      since the start, or since it stood again. */
  lemma {:induction false} QuietMeansCurrent(p: string, fits: Content -> bool, run: seq<System>, steps: seq<Step>,
          i: nat)
    requires IsRun(p, fits, run, steps) && i <= |steps|
    requires i == 0 || Stands(p, fits, run[i])
    requires forall k :: i <= k < |steps| ==> !Breaks(p, fits, run[k], steps[k])
    requires var s := run[|steps|];
             !s.coordinator.stopped && s.coordinator.entry == None && s.tasks == map[]
    ensures var s := run[|steps|];
            var state := Replay(s.stream);
            state.status == Active && fits(Content(state.name, Groups(s.world, p))) ==>
              PublishedGroups(s.stream) == Groups(s.world, p)
  {
    hide IsRun, Groups, Replay, Breaks;
    FinalStateWins(p, fits, run, steps, i, |steps|);
  }
}

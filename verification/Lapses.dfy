/** Runs that lose the final-state promise: nothing is pending any more, and the published state is out of date. */
module Lapses {
  import opened Options
  import opened Snapshot
  import opened TraefikProvider
  import opened Publication
  import opened FinalState
  import Action
  import IpClient
  import C = Coordinator

  /** One usable device, and one action that delivers it. */
  function TheDevice(): IpClient.State {
    IpClient.INITIAL.(lastKnownIPv4 := Some("192.0.2.1"))
  }

  function TheEvent(p: string): Action.Event {
    Action.Attached("a", "account", "d", Action.TraefikDelivery, [], Action.Delivery(p, "g"))
  }

  function TheWorld(p: string): World {
    World(map["a" := Action.Reduce(Action.INITIAL, TheEvent(p))], map["d" := TheDevice()])
  }

  ghost function Shown(p: string, name: string): Content {
    Content(name, Groups(TheWorld(p), p))
  }

  /** Nobody will publish any more unless something else happens. */
  predicate Quiet(s: System) {
    s.tasks == map[] && s.coordinator.entry.None? && !s.coordinator.stopped && s.queue == [] && !s.settled
  }

  ghost predicate StaysOutOfDate(p: string, fits: Content -> bool, s: System) {
    Quiet(s) && OutOfDate(p, fits, s.world, s.stream)
  }

  lemma {:induction false} SomethingToShow(p: string)
    ensures Groups(TheWorld(p), p) != []
  {
    var w := TheWorld(p);
    assert Member(w.actions["a"], p) == Some(Membership("g", "d"));
    assert Membership("g", "d") in Members(w, p);
    assert InfoOf("d", TheDevice()).Some?;
    var _ := GroupAppears(w, p, "g", "d");
  }

  function Waiting(p: string, name: string, coordinator: C.State, queue: seq<Job>): System {
    System(TheWorld(p), map[], coordinator, queue, false, [Created(name)], [], [], 0)
  }

  /** The provider is there, and its device has no action yet. */
  function Before(name: string): System {
    System(World(map[], map["d" := TheDevice()]), map[], C.INITIAL, [], false, [Created(name)], [], [], 0)
  }

  function Attaching(p: string): Step {
    ActionEvent(0, "a", TheEvent(p))
  }

  function Signalling(p: string, name: string, found: set<string>, todo: set<string>): System {
    Waiting(p, name, C.INITIAL, []).(tasks := map[0 := Task(found, None, true, todo, None)])
  }

  lemma {:induction false} TaskSteps(p: string, fits: Content -> bool, name: string)
    ensures Enabled(p, Before(name), Attaching(p))
    ensures Next(p, fits, Before(name), Attaching(p)) == Signalling(p, name, {}, {"a"})
    ensures Enabled(p, Signalling(p, name, {}, {"a"}), ReadTaskAction(0, "a"))
    ensures Next(p, fits, Signalling(p, name, {}, {"a"}), ReadTaskAction(0, "a")) == Signalling(p, name, {p}, {})
  {
    assert {} + {p} == {p} && {"a"} - {"a"} == {};
  }

  function Armed1(): C.State {
    C.Next(C.INITIAL, C.Trigger("account", None))
  }

  function Running1(): C.State {
    C.Next(Armed1(), C.TimerFires)
  }

  function OneRun(phase: Phase): seq<Job> {
    [Job(true, C.Call(None, []), phase)]
  }

  function Reading(p: string, name: string, phase: Phase): System {
    Waiting(p, name, Running1(), OneRun(phase))
  }

  lemma {:induction false} SignalSteps(p: string, fits: Content -> bool, name: string)
    ensures Enabled(p, Signalling(p, name, {p}, {}), Schedule(0, "account"))
    ensures Next(p, fits, Signalling(p, name, {p}, {}), Schedule(0, "account")) == Waiting(p, name, Armed1(), [])
    ensures Enabled(p, Waiting(p, name, Armed1(), []), TimerFires)
    ensures Next(p, fits, Waiting(p, name, Armed1(), []), TimerFires) == Reading(p, name, Queued)
  {
  }

  function Queueing(p: string): seq<Step> {
    [Attaching(p), ReadTaskAction(0, "a"), Schedule(0, "account"), TimerFires]
  }

  lemma {:induction false} BeforeIsRun(p: string, fits: Content -> bool, name: string)
    ensures IsRun(p, fits, [Before(name)], [])
  {
    assert Before(name).stream == [Created(name)];
  }

  /** The one change of the account, up to the moment its run is in the queue. */
  lemma {:induction false} RunIsQueued(p: string, fits: Content -> bool, name: string)
    returns (run: seq<System>, steps: seq<Step>)
    ensures IsRun(p, fits, run, steps)
    ensures steps == Queueing(p)
    ensures run[|steps|] == Reading(p, name, Queued)
  {
    run, steps := [Before(name)], [];
    BeforeIsRun(p, fits, name);
    hide Next, Enabled, Init, Before, Signalling, Waiting, Armed1, Running1, TheWorld, Reading;
    TaskSteps(p, fits, name);
    SignalSteps(p, fits, name);
    run, steps := Extend(p, fits, run, steps, Attaching(p));
    run, steps := Extend(p, fits, run, steps, ReadTaskAction(0, "a"));
    run, steps := Extend(p, fits, run, steps, Schedule(0, "account"));
    run, steps := Extend(p, fits, run, steps, TimerFires);
  }

  /** A run that is over: its entry at the coordinator is gone, and nobody is about to publish. */
  function Ended(p: string, name: string): System {
    Waiting(p, name, C.Next(Running1(), C.RunEnds), [])
  }

  lemma {:induction false} EndStep(p: string, fits: Content -> bool, s: System)
    requires s.settled && s.coordinator == Running1()
    ensures Enabled(p, s, RunEnds)
    ensures Next(p, fits, s, RunEnds) == s.(settled := false, coordinator := C.Next(Running1(), C.RunEnds))
  {
  }

  lemma {:induction false} FailSteps(p: string, fits: Content -> bool, name: string)
    ensures var s := Reading(p, name, Queued);
            var failed := Waiting(p, name, Running1(), []).(settled := true);
            && Enabled(p, s, Fail) && Next(p, fits, s, Fail) == failed
            && Enabled(p, failed, RunEnds) && Next(p, fits, failed, RunEnds) == Ended(p, name)
  {
    hide TheWorld, Running1;
    EndStep(p, fits, Waiting(p, name, Running1(), []).(settled := true));
  }

  /** A run's publish fails, say because the store is away, and nothing tries it again: although nothing is
      pending any more, the published state does not show the device. */
  lemma {:induction false} FailedRunIsNotRetried(p: string, fits: Content -> bool, name: string)
    returns (run: seq<System>, steps: seq<Step>)
    requires fits(Shown(p, name))
    ensures IsRun(p, fits, run, steps)
    ensures steps == Queueing(p) + [Fail, RunEnds]
    ensures StaysOutOfDate(p, fits, run[|steps|])
  {
    hide Next, Enabled, StaysOutOfDate, Ended, IsRun, Reading, Waiting, TheWorld, Running1, Queueing, Shown;
    FailSteps(p, fits, name);
    EndedOutOfDate(p, fits, name);
    run, steps := RunIsQueued(p, fits, name);
    run, steps := Extend(p, fits, run, steps, Fail);
    run, steps := Extend(p, fits, run, steps, RunEnds);
  }

  lemma {:induction false} NeverShown(p: string, fits: Content -> bool, stream: seq<Event>)
    requires var state := Replay(stream);
             state.status == Active && state.lastPublished.None? && fits(Shown(p, state.name))
    ensures OutOfDate(p, fits, TheWorld(p), stream)
  {
    SomethingToShow(p);
    hide Groups, TheWorld, Replay;
  }

  lemma {:induction false} CreatedReplays(name: string)
    ensures Replay([Created(name)]) == TraefikProvider.INITIAL.(status := Active, name := name)
  {
    ReplayAppend([], Created(name));
    assert [] + [Created(name)] == [Created(name)];
  }

  lemma {:induction false} EndedOutOfDate(p: string, fits: Content -> bool, name: string)
    requires fits(Shown(p, name))
    ensures StaysOutOfDate(p, fits, Ended(p, name))
  {
    CreatedReplays(name);
    hide Replay, TheWorld, OutOfDate;
    NeverShown(p, fits, [Created(name)]);
  }

  // ---- The rename

  function Read(name: string, p: string): Phase {
    ReadingActions(None, name, map["a" := Action.Reduce(Action.INITIAL, TheEvent(p))], {})
  }

  lemma {:induction false} ActionSteps(p: string, fits: Content -> bool, name: string)
    ensures Enabled(p, Reading(p, name, Queued), Load)
    ensures Next(p, fits, Reading(p, name, Queued), Load) == Reading(p, name, Loaded(None, name))
    ensures Enabled(p, Reading(p, name, Loaded(None, name)), ListForContent)
    ensures Next(p, fits, Reading(p, name, Loaded(None, name)), ListForContent) ==
            Reading(p, name, ReadingActions(None, name, map[], {"a"}))
    ensures Enabled(p, Reading(p, name, ReadingActions(None, name, map[], {"a"})), ReadAction("a"))
    ensures Next(p, fits, Reading(p, name, ReadingActions(None, name, map[], {"a"})), ReadAction("a")) ==
              Reading(p, name, Read(name, p))
  {
    ReplayAppend([], Created(name));
    assert [] + [Created(name)] == [Created(name)] && {"a"} - {"a"} == {};
    assert TheWorld(p).actions.Keys == {"a"};
  }

  function ReadToo(name: string, p: string, devices: map<string, IpClient.State>, todo: set<string>): Phase {
    ReadingDevices(None, name, TheWorld(p).actions, devices, todo)
  }

  lemma {:induction false} DeviceSteps(p: string, fits: Content -> bool, name: string)
    ensures Enabled(p, Reading(p, name, Read(name, p)), StartDevices)
    ensures Next(p, fits, Reading(p, name, Read(name, p)), StartDevices) ==
              Reading(p, name, ReadToo(name, p, map[], {"d"}))
    ensures Enabled(p, Reading(p, name, ReadToo(name, p, map[], {"d"})), ReadDevice("d"))
    ensures Next(p, fits, Reading(p, name, ReadToo(name, p, map[], {"d"})), ReadDevice("d")) ==
            Reading(p, name, ReadToo(name, p, TheWorld(p).devices, {}))
  {
    var actions := TheWorld(p).actions;
    assert Member(actions["a"], p) == Some(Membership("g", "d"));
    assert Members(World(actions, map[]), p) == {Membership("g", "d")};
    assert MemberDevices(actions, p) == {"d"};
    assert {"d"} - {"d"} == {};
  }

  /** The content does not fit; a failure is recorded, and the run is over. */
  function TooLong(p: string, name: string): System {
    Waiting(p, name, C.Next(Running1(), C.RunEnds), []).(
      stream := [Created(name), SnapshotPublishFailed(Generated(0), [], 0)],
      serial := 1)
  }

  lemma {:induction false} FinishSteps(p: string, fits: Content -> bool, name: string)
    requires !fits(Shown(p, name))
    ensures var s := Reading(p, name, ReadToo(name, p, TheWorld(p).devices, {}));
            var built := Reading(p, name, Built(None, Shown(p, name)));
            var finished := TooLong(p, name).(coordinator := Running1(), settled := true);
            && Enabled(p, s, Build) && Next(p, fits, s, Build) == built
            && Enabled(p, built, Finish(0)) && Next(p, fits, built, Finish(0)) == finished
            && Enabled(p, finished, RunEnds) && Next(p, fits, finished, RunEnds) == TooLong(p, name)
  {
    hide Groups, TheWorld, Running1, Replay;
    EndStep(p, fits, TooLong(p, name).(coordinator := Running1(), settled := true));
  }

  function Renaming(p: string, name: string, name': string): System {
    TooLong(p, name).(stream := TooLong(p, name).stream + [Renamed(name')])
  }

  lemma {:induction false} RenameStep(p: string, fits: Content -> bool, name: string, name': string)
    ensures Enabled(p, TooLong(p, name), Foreign(Renamed(name')))
    ensures Next(p, fits, TooLong(p, name), Foreign(Renamed(name'))) == Renaming(p, name, name')
  {
    hide TheWorld;
  }

  lemma {:induction false} FailureReplays(name: string, name': string)
    ensures var failed := [Created(name), SnapshotPublishFailed(Generated(0), [], 0)];
            && Replay(failed) == Replay([Created(name)]).(lastPublishError := Some(Generated(0)))
            && Replay(failed + [Renamed(name')]) == Replay(failed).(name := name')
  {
    var created, failed, renamed := Created(name), SnapshotPublishFailed(Generated(0), [], 0), Renamed(name');
    ReplayAppend([created], failed);
    ReplayAppend([created, failed], renamed);
    assert [created] + [failed] == [created, failed];
    hide Replay;
  }

  lemma {:induction false} RenamedOutOfDate(p: string, fits: Content -> bool, name: string, name': string)
    requires !fits(Shown(p, name)) && fits(Shown(p, name'))
    ensures Quiet(TooLong(p, name)) && !OutOfDate(p, fits, TooLong(p, name).world, TooLong(p, name).stream)
    ensures StaysOutOfDate(p, fits, Renaming(p, name, name'))
  {
    CreatedReplays(name);
    FailureReplays(name, name');
    hide Replay, TheWorld, Groups;
    NeverShown(p, fits, TooLong(p, name).stream + [Renamed(name')]);
  }

  function ReadingOn(): seq<Step> {
    [Load, ListForContent, ReadAction("a"), StartDevices, ReadDevice("d")]
  }

  lemma {:induction false} ContentIsRead(p: string, fits: Content -> bool, name: string)
    returns (run: seq<System>, steps: seq<Step>)
    ensures IsRun(p, fits, run, steps)
    ensures steps == Queueing(p) + ReadingOn()
    ensures run[|steps|] == Reading(p, name, ReadToo(name, p, TheWorld(p).devices, {}))
  {
    ActionSteps(p, fits, name);
    DeviceSteps(p, fits, name);
    hide Next, Enabled, Init, Quiet, OutOfDate, StaysOutOfDate, TheWorld, Reading, ReadToo, Read, Shown, Renaming,
    TooLong, Queueing;
    run, steps := RunIsQueued(p, fits, name);
    run, steps := Extend(p, fits, run, steps, Load);
    run, steps := Extend(p, fits, run, steps, ListForContent);
    run, steps := Extend(p, fits, run, steps, ReadAction("a"));
    run, steps := Extend(p, fits, run, steps, StartDevices);
    run, steps := Extend(p, fits, run, steps, ReadDevice("d"));
  }

  function Finishing(): seq<Step> {
    [Build, Finish(0), RunEnds]
  }

  lemma {:induction false} TooLongIsRecorded(p: string, fits: Content -> bool, name: string)
    returns (run: seq<System>, steps: seq<Step>)
    requires !fits(Shown(p, name))
    ensures IsRun(p, fits, run, steps) && run[|steps|] == TooLong(p, name)
    ensures steps == Queueing(p) + ReadingOn() + Finishing()
  {
    hide Next, Enabled, IsRun, TheWorld, Reading, ReadToo, Shown, TooLong, Queueing, ReadingOn, Running1, Waiting;
    FinishSteps(p, fits, name);
    run, steps := ContentIsRead(p, fits, name);
    run, steps := Extend(p, fits, run, steps, Build);
    run, steps := Extend(p, fits, run, steps, Finish(0));
    run, steps := Extend(p, fits, run, steps, RunEnds);
  }

  /** A content is too large for the limit until the provider gets a shorter name. The rename triggers no run,
      so the published state stays out of date although it would fit now. */
  lemma {:induction false} RenameIsNotFollowed(p: string, fits: Content -> bool, name: string, name': string)
    returns (run: seq<System>, steps: seq<Step>)
    requires !fits(Shown(p, name)) && fits(Shown(p, name'))
    ensures IsRun(p, fits, run, steps)
    ensures steps == Queueing(p) + ReadingOn() + Finishing() + [Foreign(Renamed(name'))]
    ensures var s := run[|steps| - 1]; Quiet(s) && !OutOfDate(p, fits, s.world, s.stream)
    ensures StaysOutOfDate(p, fits, run[|steps|])
  {
    hide Next, Enabled, Init, Follows, Quiet, OutOfDate, StaysOutOfDate, TooLong, Renaming, Queueing, ReadingOn,
    Finishing, Shown;
    run, steps := TooLongIsRecorded(p, fits, name);
    RenameStep(p, fits, name, name');
    RenamedOutOfDate(p, fits, name, name');
    run, steps := Extend(p, fits, run, steps, Foreign(Renamed(name')));
  }
}

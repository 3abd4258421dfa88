/** Whole runs of one agent process: any interleaving of connections, snapshots, ticks and reloads. */
module AgentRuns {
  import opened Options
  import opened Directory
  import opened OutputDirectory
  import Render
  import opened Agent

  /** The outputs are there, and no other managed file is. */
  ghost predicate Exact(d: Dir, prefix: string, outputs: seq<Output>) {
    && AllInPlace(d, outputs)
    && (forall n :: n in Managed(d, prefix) <==> Wanted(outputs, n))
  }

  function When(step: Step): int {
    step.now
  }

  /** The rendering a step applies, if it gets that far. */
  ghost function Tried(cfg: Config, s: State, step: Step): Option<seq<Output>> {
    match step
    case SnapshotArrives(snapshot, _, _) =>
      if Outdated(s, snapshot) then None else RenderAll(cfg.prefix, s.templates, DataFor(Some(snapshot), false))
    case Tick(now, _) =>
      if Overdue(cfg, s, now) then RenderAll(cfg.prefix, s.templates, DataFor(s.last, true)) else None
    case Reload(loaded, _, _) =>
      if loaded.Some? && Accepted(cfg, s, loaded.value) then RenderAll(cfg.prefix, loaded.value, DataNow(s)) else None
    case _ => None
  }

  function Fault(step: Step): Option<Dir> {
    if step.Connected? || step.Disconnected? then None else step.fault
  }

  /** Loading checks the templates. */
  ghost predicate TakesLoaded(step: Step) {
    step.Reload? && step.loaded.Some? ==> Loadable(step.loaded.value)
  }

  /** A failing Apply leaves a directory that is safe to be left with. */
  ghost predicate Enabled(cfg: Config, s: State, step: Step) {
    && TakesLoaded(step)
    && (Fault(step).Some? && Tried(cfg, s, step).Some? ==>
          CrashSafe(s.dir, Fault(step).value, cfg.prefix, Tried(cfg, s, step).value))
  }

  ghost predicate Begins(cfg: Config, d: Dir, s: State) {
    exists templates, cleaned, now ::
      && Loadable(templates) && LeftByCleanup(d, cleaned, cfg.prefix)
      && Started(cfg, templates, cleaned, now) == Some(s)
  }

  ghost predicate Follows(cfg: Config, run: seq<State>, steps: seq<Step>, i: nat)
    requires i < |steps| < |run|
  {
    && Enabled(cfg, run[i], steps[i])
    && run[i + 1] == Next(cfg, run[i], steps[i])
  }

  /** The clock is monotonic. */
  ghost predicate Timed(steps: seq<Step>) {
    forall i :: 0 < i < |steps| ==> When(steps[i - 1]) <= When(steps[i])
  }

  ghost predicate AllFollow(cfg: Config, run: seq<State>, steps: seq<Step>) {
    && ValidConfig(cfg) && |run| == |steps| + 1
    && (forall i :: 0 <= i < |steps| ==> Follows(cfg, run, steps, i))
    && Timed(steps)
  }

  ghost predicate IsRun(cfg: Config, d: Dir, run: seq<State>, steps: seq<Step>) {
    AllFollow(cfg, run, steps) && Begins(cfg, d, run[0])
  }

  /** The rendering that the files should be, where there is one. */
  function Due(cfg: Config, s: State): Option<seq<Output>> {
    RenderAll(cfg.prefix, s.templates, DataNow(s))
  }

  /** After the first Apply, and unless one has failed half-way since the last that worked, the managed files
      are the rendering of the current templates with the last snapshot and the stale mark. There is such a
      rendering whenever a snapshot was applied or the agent is not stale. */
  ghost predicate Inv(cfg: Config, s: State) {
    && Loadable(s.templates)
    && (s.haveApplied <==> s.last.Some?)
    && (s.last.Some? ==> s.last.value.version == s.appliedVersion)
    && RenderAll(cfg.prefix, s.templates, Render.EmptyData(false)).Some?
    && (s.last.Some? || !s.stale ==> Due(cfg, s).Some?)
    && (s.applied && s.settled && Due(cfg, s).Some? ==> Exact(s.dir, cfg.prefix, Due(cfg, s).value))
  }

  lemma {:induction false} AppliedIsExact(cfg: Config, d: Dir, templates: seq<Template>, data: Render.Data)
    requires ValidConfig(cfg) && Loadable(templates) && RenderAll(cfg.prefix, templates, data).Some?
    ensures var outputs := RenderAll(cfg.prefix, templates, data).value;
            Exact(Target(d, cfg.prefix, outputs), cfg.prefix, outputs)
  {
    RenderedIsAcceptable(cfg, templates, data);
    TargetIsExact(d, cfg.prefix, RenderAll(cfg.prefix, templates, data).value);
  }

  lemma {:induction false} StartKeepsInv(cfg: Config, d: Dir, s: State)
    requires ValidConfig(cfg) && Begins(cfg, d, s)
    ensures Inv(cfg, s) && s.last.None? && !s.stale
  {
    var templates, cleaned, now :| Loadable(templates) && LeftByCleanup(d, cleaned, cfg.prefix)
                                   && Started(cfg, templates, cleaned, now) == Some(s);
    AppliedIsExact(cfg, cleaned, templates, Render.EmptyData(false));
  }

  lemma {:induction false} SnapshotKeepsInv(cfg: Config, s: State, step: Step)
    requires ValidConfig(cfg) && Inv(cfg, s) && step.SnapshotArrives?
    ensures Inv(cfg, Next(cfg, s, step))
  {
    hide RenderAll, Exact, Target, Loadable, CrashSafe;
    var data := DataFor(Some(step.snapshot), false);
    if RenderAll(cfg.prefix, s.templates, data).Some? {
      AppliedIsExact(cfg, s.dir, s.templates, data);
    }
  }

  lemma {:induction false} TickKeepsInv(cfg: Config, s: State, step: Step)
    requires ValidConfig(cfg) && Inv(cfg, s) && step.Tick?
    ensures Inv(cfg, Next(cfg, s, step))
  {
    hide RenderAll, Exact, Target, Loadable, CrashSafe;
    var data := DataFor(s.last, true);
    if RenderAll(cfg.prefix, s.templates, data).Some? {
      AppliedIsExact(cfg, s.dir, s.templates, data);
    }
  }

  lemma {:induction false} ReloadKeepsInv(cfg: Config, s: State, step: Step)
    requires ValidConfig(cfg) && Inv(cfg, s) && step.Reload? && Enabled(cfg, s, step)
    ensures Inv(cfg, Next(cfg, s, step))
  {
    hide RenderAll, Exact, Target, Loadable, CrashSafe;
    if step.loaded.Some? && Accepted(cfg, s, step.loaded.value)
       && RenderAll(cfg.prefix, step.loaded.value, DataNow(s)).Some? {
      AppliedIsExact(cfg, s.dir, step.loaded.value, DataNow(s));
    }
  }

  lemma {:induction false} StepKeepsInv(cfg: Config, s: State, step: Step)
    requires ValidConfig(cfg) && Inv(cfg, s) && Enabled(cfg, s, step)
    ensures Inv(cfg, Next(cfg, s, step))
  {
    match step
    case Connected(_) =>
    case Disconnected(_) =>
    case SnapshotArrives(_, _, _) => SnapshotKeepsInv(cfg, s, step);
    case Tick(_, _) => TickKeepsInv(cfg, s, step);
    case Reload(_, _, _) => ReloadKeepsInv(cfg, s, step);
  }

  lemma {:induction false} FollowsKeepsInv(cfg: Config, run: seq<State>, steps: seq<Step>, i: nat)
    requires ValidConfig(cfg) && i < |steps| < |run| && Follows(cfg, run, steps, i) && Inv(cfg, run[i])
    ensures Inv(cfg, run[i + 1])
  {
    StepKeepsInv(cfg, run[i], steps[i]);
  }

  lemma {:induction false} InvFrom(cfg: Config, run: seq<State>, steps: seq<Step>, k: nat)
    requires AllFollow(cfg, run, steps) && k <= |steps| && Inv(cfg, run[0])
    ensures Inv(cfg, run[k])
    decreases k
  {
    if k > 0 {
      InvFrom(cfg, run, steps, k - 1);
      FollowsKeepsInv(cfg, run, steps, k - 1);
    }
  }

  /** In every reachable state the files are what the state says they are. */
  lemma {:induction false} FilesMatchState(cfg: Config, d: Dir, run: seq<State>, steps: seq<Step>, k: nat)
    requires IsRun(cfg, d, run, steps) && k <= |steps|
    ensures Inv(cfg, run[k])
  {
    StartKeepsInv(cfg, d, run[0]);
    InvFrom(cfg, run, steps, k);
  }

  lemma {:induction false} VersionFollows(cfg: Config, run: seq<State>, steps: seq<Step>, i: nat)
    requires i < |steps| < |run| && Follows(cfg, run, steps, i)
    ensures run[i].haveApplied ==> run[i + 1].haveApplied && run[i].appliedVersion <= run[i + 1].appliedVersion
  {
    VersionStep(cfg, run[i], steps[i]);
  }

  lemma {:induction false} NeverFalls(versions: seq<Option<nat>>, i: nat, j: nat)
    requires i <= j < |versions|
    requires forall k :: 0 <= k < |versions| - 1 && versions[k].Some? ==>
               versions[k + 1].Some? && versions[k].value <= versions[k + 1].value
    ensures versions[i].Some? ==> versions[j].Some? && versions[i].value <= versions[j].value
  {
    if i < j {
      NeverFalls(versions, i, j - 1);
      assert versions[j - 1].Some? ==> versions[j - 1 + 1].Some?;
    }
  }

  /** The applied version never decreases, and once there is one there always is. */
  lemma {:induction false} VersionsNeverDecrease(cfg: Config, run: seq<State>, steps: seq<Step>, i: nat, j: nat)
    requires AllFollow(cfg, run, steps) && i <= j <= |steps|
    ensures run[i].haveApplied ==> run[j].haveApplied && run[i].appliedVersion <= run[j].appliedVersion
  {
    var versions :=
      seq(|run|, k requires 0 <= k < |run| => if run[k].haveApplied then Some(run[k].appliedVersion) else None);
    forall k | 0 <= k < |steps| && versions[k].Some?
      ensures versions[k + 1].Some? && versions[k].value <= versions[k + 1].value {
      VersionFollows(cfg, run, steps, k);
    }
    NeverFalls(versions, i, j);
  }

  lemma {:induction false} VersionStep(cfg: Config, s: State, step: Step)
    ensures s.haveApplied ==> Next(cfg, s, step).haveApplied && s.appliedVersion <= Next(cfg, s, step).appliedVersion
  {
  }

  // ---- Staleness

  /** The step applied its snapshot. */
  ghost predicate Applies(cfg: Config, s: State, step: Step) {
    step.SnapshotArrives? && Tried(cfg, s, step).Some? && step.fault.None?
  }

  lemma {:induction false} ClockStep(cfg: Config, s: State, step: Step)
    ensures var s' := Next(cfg, s, step);
            && (Applies(cfg, s, step) || step.Disconnected? ==> s'.offlineSince == When(step))
            && (s'.offlineSince == s.offlineSince || s'.offlineSince == When(step))
  {
  }

  lemma {:induction false} ClockFollows(cfg: Config, run: seq<State>, steps: seq<Step>, i: nat)
    requires i < |steps| < |run| && Follows(cfg, run, steps, i)
    ensures Applies(cfg, run[i], steps[i]) || steps[i].Disconnected? ==> run[i + 1].offlineSince == When(steps[i])
    ensures run[i + 1].offlineSince == run[i].offlineSince || run[i + 1].offlineSince == When(steps[i])
  {
    ClockStep(cfg, run[i], steps[i]);
  }

  /** A clock reading that is only ever replaced by a later one. */
  lemma {:induction false} LatestReading(when: seq<int>, readings: seq<int>, j: nat, k: nat)
    requires j < k <= |when| < |readings|
    requires forall i :: 0 < i < |when| ==> when[i - 1] <= when[i]
    requires forall i :: 0 <= i < |when| ==> readings[i + 1] == readings[i] || readings[i + 1] == when[i]
    requires readings[j + 1] == when[j]
    ensures when[j] <= readings[k] && (k < |when| ==> when[j] <= when[k])
    decreases k
  {
    if j + 1 < k {
      LatestReading(when, readings, j, k - 1);
    }
  }

  lemma {:induction false} TimerRestarts(cfg: Config, run: seq<State>, steps: seq<Step>, j: nat, k: nat)
    requires AllFollow(cfg, run, steps) && j < k <= |steps|
    requires Applies(cfg, run[j], steps[j]) || steps[j].Disconnected?
    ensures When(steps[j]) <= run[k].offlineSince
  {
    hide Follows, Applies;
    var when := seq(|steps|, i requires 0 <= i < |steps| => When(steps[i]));
    var readings := seq(|run|, i requires 0 <= i < |run| => run[i].offlineSince);
    forall i | 0 <= i < |when| ensures readings[i + 1] == readings[i] || readings[i + 1] == when[i] {
      ClockFollows(cfg, run, steps, i);
    }
    ClockFollows(cfg, run, steps, j);
    LatestReading(when, readings, j, k);
  }

  lemma {:induction false} StaleStep(cfg: Config, s: State, step: Step)
    requires !s.stale && Next(cfg, s, step).stale
    ensures step.Tick? && Overdue(cfg, s, When(step)) && step.fault.None? && Tried(cfg, s, step).Some?
  {
  }

  /** Before the first apply or disconnect, the clock shows the start. */
  lemma {:induction false} ClockShowsStart(cfg: Config, run: seq<State>, steps: seq<Step>, i: nat)
    requires AllFollow(cfg, run, steps) && i <= |steps|
    requires forall j :: 0 <= j < i ==> !Restarts(cfg, run[j], steps[j])
    ensures run[i].offlineSince == run[0].offlineSince
    decreases i
  {
    hide Restarts;
    if i > 0 {
      ClockShowsStart(cfg, run, steps, i - 1);
      assert Follows(cfg, run, steps, i - 1);
      OnlyRestartsMove(cfg, run[i - 1], steps[i - 1]);
    }
  }

  ghost predicate Restarts(cfg: Config, s: State, step: Step) {
    Applies(cfg, s, step) || step.Disconnected?
  }

  lemma {:induction false} OnlyRestartsMove(cfg: Config, s: State, step: Step)
    requires !Restarts(cfg, s, step)
    ensures Next(cfg, s, step).offlineSince == s.offlineSince
  {
    hide RenderAll, Target, Accepted, DataFor, DataNow, Overdue;
  }

  /** The files are marked stale only by a tick of a disconnected agent, when no snapshot was applied and no
      connection was lost within the preceding maximum offline time, and neither did the agent start within it. */
  lemma {:induction false} StaleOnlyWhenOverdue(cfg: Config, d: Dir, run: seq<State>, steps: seq<Step>, i: nat)
    requires IsRun(cfg, d, run, steps) && i < |steps|
    requires !run[i].stale && run[i + 1].stale
    ensures steps[i].Tick? && !run[i].connected && cfg.maxOffline > 0
    ensures forall j :: 0 <= j < i && Restarts(cfg, run[j], steps[j]) ==>
              When(steps[i]) - When(steps[j]) > cfg.maxOffline
    ensures (forall j :: 0 <= j < i ==> !Restarts(cfg, run[j], steps[j])) ==>
              When(steps[i]) - run[0].offlineSince > cfg.maxOffline
  {
    assert Follows(cfg, run, steps, i);
    StaleStep(cfg, run[i], steps[i]);
    hide Next, Enabled, Begins;
    forall j | 0 <= j < i && Restarts(cfg, run[j], steps[j]) ensures When(steps[i]) - When(steps[j]) > cfg.maxOffline {
      TimerRestarts(cfg, run, steps, j, i);
    }
    if forall j :: 0 <= j < i ==> !Restarts(cfg, run[j], steps[j]) {
      ClockShowsStart(cfg, run, steps, i);
    }
  }

  /** The mark is cleared only by applying a snapshot, and then the files are that snapshot's rendering. */
  lemma {:induction false} StaleClearedOnlyByApply(cfg: Config, d: Dir, run: seq<State>, steps: seq<Step>, i: nat)
    requires IsRun(cfg, d, run, steps) && i < |steps|
    requires run[i].stale && !run[i + 1].stale
    ensures Applies(cfg, run[i], steps[i])
    ensures run[i + 1].last == Some(steps[i].snapshot)
    ensures Exact(run[i + 1].dir, cfg.prefix, Tried(cfg, run[i], steps[i]).value)
  {
    var s, step := run[i], steps[i];
    assert Follows(cfg, run, steps, i);
    UnstaleStep(cfg, s, step);
    FilesMatchState(cfg, d, run, steps, i);
    AppliedIsExact(cfg, s.dir, s.templates, DataFor(Some(step.snapshot), false));
  }

  lemma {:induction false} UnstaleStep(cfg: Config, s: State, step: Step)
    requires s.stale && !Next(cfg, s, step).stale
    ensures Applies(cfg, s, step) && Next(cfg, s, step).last == Some(step.snapshot)
    ensures Next(cfg, s, step).dir == Target(s.dir, cfg.prefix, Tried(cfg, s, step).value)
  {
  }

  // ---- Reloading

  /** Either nothing changes, or the new templates are in force and the files are their rendering. */
  ghost predicate AllOrNothing(cfg: Config, s: State, templates: seq<Template>, s': State) {
    || s' == s
    || (s'.templates == templates && s'.settled && Due(cfg, s').Some? && Exact(s'.dir, cfg.prefix, Due(cfg, s').value))
  }

  /** Without a failing call a reload is all or nothing exactly when a snapshot was applied, or the agent is
      not stale, or the new templates fail with nothing at all, or they also render the stale nothing, or they
      are the old ones. */
  lemma {:induction false} ReloadIsAllOrNothing(cfg: Config, s: State, templates: seq<Template>, now: int)
    requires ValidConfig(cfg) && Inv(cfg, s) && Loadable(templates)
    ensures AllOrNothing(cfg, s, templates, Next(cfg, s, Reload(Some(templates), now, None))) <==>
            || s.last.Some? || !s.stale
            || RenderAll(cfg.prefix, templates, Render.EmptyData(false)).None?
            || RenderAll(cfg.prefix, templates, Render.EmptyData(true)).Some?
            || templates == s.templates
  {
    var data := DataNow(s);
    if !Accepted(cfg, s, templates) {
      RejectedReload(cfg, s, templates, now);
    } else if RenderAll(cfg.prefix, templates, data).Some? {
      AppliedReload(cfg, s, templates, now);
    } else {
      BrokenReload(cfg, s, templates, now);
    }
  }

  lemma {:induction false} RejectedReload(cfg: Config, s: State, templates: seq<Template>, now: int)
    requires !Accepted(cfg, s, templates)
    ensures Next(cfg, s, Reload(Some(templates), now, None)) == s
  {
  }

  lemma {:induction false} AppliedReload(cfg: Config, s: State, templates: seq<Template>, now: int)
    requires ValidConfig(cfg) && Loadable(templates) && Accepted(cfg, s, templates)
    requires RenderAll(cfg.prefix, templates, DataNow(s)).Some?
    ensures AllOrNothing(cfg, s, templates, Next(cfg, s, Reload(Some(templates), now, None)))
  {
    hide RenderAll, Exact, Target, Loadable;
    AppliedIsExact(cfg, s.dir, templates, DataNow(s));
  }

  lemma {:induction false} BrokenReload(cfg: Config, s: State, templates: seq<Template>, now: int)
    requires Accepted(cfg, s, templates) && RenderAll(cfg.prefix, templates, DataNow(s)).None?
    ensures var s' := Next(cfg, s, Reload(Some(templates), now, None));
            s' == s.(templates := templates) && Due(cfg, s').None?
  {
  }

  /** A template that renders its content only while the agent is not stale. */
  function OnlyWhenFresh(outputName: string, content: Bytes): Template {
    Template("", outputName, (data: Render.Data) => if data.stale then None else Some(content))
  }

  /** The exception: a stale agent with no snapshot takes such a template although it cannot render it. */
  lemma {:induction false} StaleReloadCanHalfHappen(cfg: Config, s: State, outputName: string, content: Bytes, now: int)
    requires ValidConfig(cfg) && Inv(cfg, s) && s.last.None? && s.stale
    requires Validate(cfg.prefix + outputName, content) && s.templates != [OnlyWhenFresh(outputName, content)]
    ensures var templates := [OnlyWhenFresh(outputName, content)];
            var s' := Next(cfg, s, Reload(Some(templates), now, None));
            s'.templates == templates && s'.dir == s.dir && Due(cfg, s').None?
  {
    var t := OnlyWhenFresh(outputName, content);
    OneTemplate(cfg.prefix, t, Render.EmptyData(false));
    OneTemplate(cfg.prefix, t, Render.EmptyData(true));
  }

  /** The run that gets there, from an empty directory and with a template that never fails: a start, a tick
      after the maximum offline time, and the reload. */
  lemma {:induction false} StaleReloadRun(cfg: Config, outputName: string, content: Bytes, now: int)
    returns (run: seq<State>, steps: seq<Step>)
    requires ValidConfig(cfg) && cfg.maxOffline > 0 && Validate(cfg.prefix + outputName, content)
    ensures var later, templates := now + cfg.maxOffline + 1, [OnlyWhenFresh(outputName, content)];
            && IsRun(cfg, map[], run, steps)
            && steps == [Tick(later, None), Reload(Some(templates), later, None)]
            && run[2].templates == templates && run[2].dir == run[1].dir && Due(cfg, run[2]).None?
            && !AllOrNothing(cfg, run[1], templates, run[2])
  {
    hide *;
    var later, templates := now + cfg.maxOffline + 1, [OnlyWhenFresh(outputName, content)];
    var tick, reload := Tick(later, None), Reload(Some(templates), later, None);
    var first, stale := SteadyTurnsStale(cfg, outputName, content, now);
    StaleReloadCanHalfHappen(cfg, stale, outputName, content, later);
    HalfHappened(cfg, stale, templates, Next(cfg, stale, reload));
    OneIsTaken(templates, later);
    run, steps := StepsFollow(cfg, map[], first, tick, reload);
  }

  lemma {:induction false} OneIsTaken(templates: seq<Template>, now: int)
    requires |templates| == 1
    ensures var tick, reload := Tick(now, None), Reload(Some(templates), now, None);
            && TakesLoaded(tick) && TakesLoaded(reload) && Fault(tick).None? && Fault(reload).None?
            && When(tick) <= When(reload)
  {
  }

  /** A template that never fails. */
  function Steady(outputName: string, content: Bytes): Template {
    Template("", outputName, (data: Render.Data) => Some(content))
  }

  lemma {:induction false} SteadyRenders(outputName: string, content: Bytes)
    ensures var steady := Steady(outputName, content);
            steady.outputName == outputName && forall data :: steady.render(data) == Some(content)
  {
  }

  lemma {:induction false} TheyDiffer(outputName: string, content: Bytes)
    ensures [Steady(outputName, content)] != [OnlyWhenFresh(outputName, content)]
  {
    var steady, picky := Steady(outputName, content), OnlyWhenFresh(outputName, content);
    assert picky.render(Render.EmptyData(true)) != steady.render(Render.EmptyData(true));
    assert [picky][0] != [steady][0];
  }

  lemma {:induction false} SteadyTurnsStale(cfg: Config, outputName: string, content: Bytes, now: int)
    returns (s: State, s': State)
    requires ValidConfig(cfg) && cfg.maxOffline > 0 && Validate(cfg.prefix + outputName, content)
    ensures Begins(cfg, map[], s) && s' == Next(cfg, s, Tick(now + cfg.maxOffline + 1, None)) && Inv(cfg, s')
    ensures s'.stale && s'.last.None? && s'.templates != [OnlyWhenFresh(outputName, content)]
  {
    hide *;
    var steady := Steady(outputName, content);
    SteadyRenders(outputName, content);
    TheyDiffer(outputName, content);
    s := SteadyStart(cfg, steady, content, now);
    s' := TickMarks(cfg, s, steady, content, now + cfg.maxOffline + 1);
  }

  lemma {:induction false} HalfHappened(cfg: Config, s: State, templates: seq<Template>, s': State)
    requires s'.templates == templates != s.templates && Due(cfg, s').None?
    ensures !AllOrNothing(cfg, s, templates, s')
  {
  }

  lemma {:induction false} StepsFollow(cfg: Config, d: Dir, s: State, first: Step, second: Step)
    returns (run: seq<State>, steps: seq<Step>)
    requires ValidConfig(cfg) && Begins(cfg, d, s) && Fault(first).None? && Fault(second).None?
    requires TakesLoaded(first) && TakesLoaded(second) && When(first) <= When(second)
    ensures IsRun(cfg, d, run, steps) && steps == [first, second] && |run| == 3
    ensures run[1] == Next(cfg, s, first) && run[2] == Next(cfg, run[1], second)
  {
    hide Next, Begins, Tried, CrashSafe;
    var s' := Next(cfg, s, first);
    run, steps := [s, s', Next(cfg, s', second)], [first, second];
    assert Follows(cfg, run, steps, 0) && Follows(cfg, run, steps, 1);
  }

  lemma {:induction false} TickMarks(cfg: Config, s: State, t: Template, content: Bytes, now: int) returns (s': State)
    requires ValidConfig(cfg) && cfg.maxOffline > 0 && Validate(cfg.prefix + t.outputName, content)
    requires forall data :: t.render(data) == Some(content)
    requires Begins(cfg, map[], s) && s.templates == [t] && s.last.None? && !s.connected
    requires now - s.offlineSince > cfg.maxOffline
    ensures s' == Next(cfg, s, Tick(now, None)) && Inv(cfg, s') && s'.stale && s'.last.None? && s'.templates == [t]
  {
    s' := Next(cfg, s, Tick(now, None));
    StartKeepsInv(cfg, map[], s);
    TickKeepsInv(cfg, s, Tick(now, None));
    OneTemplate(cfg.prefix, t, Render.EmptyData(true));
    hide RenderAll, Inv, Begins, Target;
  }

  lemma {:induction false} SteadyStart(cfg: Config, t: Template, content: Bytes, now: int) returns (s: State)
    requires ValidConfig(cfg) && Validate(cfg.prefix + t.outputName, content)
             && forall data :: t.render(data) == Some(content)
    ensures Begins(cfg, map[], s) && s.templates == [t] && s.last.None? && !s.stale && !s.connected
    ensures s.offlineSince == now
  {
    OneTemplate(cfg.prefix, t, Render.EmptyData(false));
    assert Managed(map[], cfg.prefix) == {};
    s := Started(cfg, [t], map[], now).value;
    assert Loadable([t]) && LeftByCleanup(map[], map[], cfg.prefix) && Started(cfg, [t], map[], now) == Some(s);
  }

  lemma {:induction false} OneTemplate(prefix: string, t: Template, data: Render.Data)
    ensures RenderAll(prefix, [t], data).Some? <==>
              t.render(data).Some? && Validate(prefix + t.outputName, t.render(data).value)
  {
    assert [t][..0] == [];
  }

  // ---- The methods' faults are the machine's

  /** Every step a method of the process makes is one the machine allows, wherever a call failed: if the random
      parts of its temporary names hit no existing file and nothing but regular files stands in the way. */
  lemma {:induction false} MethodsFollowMachine(cfg: Config, s: State, step: Step, randoms: seq<string>)
    requires ValidConfig(cfg) && Inv(cfg, s) && TakesLoaded(step) && LeavesOnPath(cfg, s, step, randoms)
    requires Tried(cfg, s, step).Some? ==> Unobstructed(s.dir, Tried(cfg, s, step).value, randoms)
    ensures Enabled(cfg, s, step)
  {
    if Fault(step).Some? && Tried(cfg, s, step).Some? {
      TriedIsAcceptable(cfg, s, step);
      FaultIsTried(cfg, s, step, randoms);
      var outputs := Tried(cfg, s, step).value;
      var ops := ApplyOps(s.dir, cfg.prefix, outputs, randoms);
      var k :| 0 <= k <= |ops| && Fault(step).value == DoAll(s.dir, ops[..k]);
      ApplyIsCrashSafe(s.dir, cfg.prefix, outputs, randoms, k);
    }
  }

  lemma {:induction false} FaultIsTried(cfg: Config, s: State, step: Step, randoms: seq<string>)
    requires LeavesOnPath(cfg, s, step, randoms) && Fault(step).Some? && Tried(cfg, s, step).Some?
    requires |Tried(cfg, s, step).value| == |randoms|
    ensures OnPath(s.dir, Fault(step).value, ApplyOps(s.dir, cfg.prefix, Tried(cfg, s, step).value, randoms))
  {
    hide RenderAll, OnPath, ApplyOps;
  }

  // ---- Foreign files

  predicate Foreign(prefix: string, n: string) {
    !ManagedName(prefix, n) && !TempName(prefix, n)
  }

  lemma {:induction false} ApplyingDir(cfg: Config, s: State, data: Render.Data, fault: Option<Dir>)
    ensures Applying(cfg, s, data, fault).state.dir ==
            var outputs := RenderAll(cfg.prefix, s.templates, data);
            if outputs.None? then s.dir else if fault.Some? then fault.value
                                             else Target(s.dir, cfg.prefix, outputs.value)
  {
  }

  lemma {:induction false} StepDir(cfg: Config, s: State, step: Step)
    ensures Next(cfg, s, step).dir ==
            if Tried(cfg, s, step).None? then s.dir
            else if Fault(step).Some? then Fault(step).value
            else Target(s.dir, cfg.prefix, Tried(cfg, s, step).value)
  {
    match step
    case SnapshotArrives(snapshot, _, fault) => ApplyingDir(cfg, s, DataFor(Some(snapshot), false), fault);
    case Tick(_, fault) => ApplyingDir(cfg, s, DataFor(s.last, true), fault);
    case Reload(loaded, _, fault) =>
      if loaded.Some? {
        ApplyingDir(cfg, s.(templates := loaded.value), DataNow(s), fault);
      }
    case _ =>
  }

  lemma {:induction false} StepKeepsForeign(cfg: Config, s: State, step: Step, n: string)
    requires ValidConfig(cfg) && Inv(cfg, s) && Enabled(cfg, s, step) && Foreign(cfg.prefix, n)
    ensures Same(s.dir, Next(cfg, s, step).dir, n)
  {
    StepDir(cfg, s, step);
    var tried := Tried(cfg, s, step);
    if tried.Some? {
      TriedIsAcceptable(cfg, s, step);
      if Fault(step).Some? {
        FaultKeepsForeign(s.dir, Fault(step).value, cfg.prefix, tried.value, n);
      } else {
        TargetKeepsForeign(s.dir, cfg.prefix, tried.value, n);
      }
    }
  }

  lemma {:induction false} FaultKeepsForeign(d: Dir, d': Dir, prefix: string, outputs: seq<Output>, n: string)
    requires CrashSafe(d, d', prefix, outputs) && Foreign(prefix, n)
    ensures Same(d, d', n)
  {
    assert SafeName(d, d', prefix, outputs, n);
  }

  lemma {:induction false} TriedIsAcceptable(cfg: Config, s: State, step: Step)
    requires ValidConfig(cfg) && Inv(cfg, s) && TakesLoaded(step) && Tried(cfg, s, step).Some?
    ensures Acceptable(cfg.prefix, Tried(cfg, s, step).value)
  {
    match step
    case SnapshotArrives(snapshot, _, _) => RenderedIsAcceptable(cfg, s.templates, DataFor(Some(snapshot), false));
    case Tick(_, _) => RenderedIsAcceptable(cfg, s.templates, DataFor(s.last, true));
    case Reload(loaded, _, _) => RenderedIsAcceptable(cfg, loaded.value, DataNow(s));
  }

  lemma {:induction false} TargetKeepsForeign(d: Dir, prefix: string, outputs: seq<Output>, n: string)
    requires Acceptable(prefix, outputs) && Foreign(prefix, n)
    ensures Same(d, Target(d, prefix, outputs), n)
  {
    TargetAt(d, prefix, outputs, n);
    assert !Wanted(outputs, n);
  }

  lemma {:induction false} StartKeepsForeign(cfg: Config, d: Dir, s: State, n: string)
    requires ValidConfig(cfg) && Begins(cfg, d, s) && Foreign(cfg.prefix, n)
    ensures Same(d, s.dir, n)
  {
    var templates, cleaned, now :| Loadable(templates) && LeftByCleanup(d, cleaned, cfg.prefix)
                                   && Started(cfg, templates, cleaned, now) == Some(s);
    assert Same(d, cleaned, n) by {
      assert n in Cleaned(d, cfg.prefix) <==> n in d;
      assert n in Cleaned(cleaned, cfg.prefix) <==> n in cleaned;
    }
    var outputs := RenderAll(cfg.prefix, templates, Render.EmptyData(false)).value;
    RenderedIsAcceptable(cfg, templates, Render.EmptyData(false));
    TargetKeepsForeign(cleaned, cfg.prefix, outputs, n);
  }

  /** Whatever happens, failing calls included, files that are neither managed nor temporary are never touched. */
  lemma {:induction false} ForeignFilesUntouched(cfg: Config, d: Dir, run: seq<State>, steps: seq<Step>, k: nat,
          n: string)
    requires IsRun(cfg, d, run, steps) && k <= |steps| && Foreign(cfg.prefix, n)
    ensures Same(d, run[k].dir, n)
    decreases k
  {
    if k == 0 {
      StartKeepsForeign(cfg, d, run[0], n);
    } else {
      ForeignFilesUntouched(cfg, d, run, steps, k - 1, n);
      FilesMatchState(cfg, d, run, steps, k - 1);
      assert Follows(cfg, run, steps, k - 1);
      StepKeepsForeign(cfg, run[k - 1], steps[k - 1], n);
    }
  }

  // ---- Delivery order

  ghost predicate Delivered(steps: seq<Step>, p: Payload) {
    exists i :: 0 <= i < |steps| && steps[i].SnapshotArrives? && steps[i].snapshot == p
  }

  /** What the publishing side guarantees of everything it hands out. */
  ghost predicate VersionsAgree(steps: seq<Step>) {
    forall p, q :: Delivered(steps, p) && Delivered(steps, q) && p.version == q.version ==> p == q
  }

  /** Every delivered snapshot that is not outdated renders validly and is applied without a failing call. */
  ghost predicate AllValid(cfg: Config, run: seq<State>, steps: seq<Step>)
    requires |run| == |steps| + 1
  {
    forall i :: 0 <= i < |steps| ==> AppliesIfNew(cfg, run[i], steps[i])
  }

  ghost predicate AppliesIfNew(cfg: Config, s: State, step: Step) {
    step.SnapshotArrives? && !Outdated(s, step.snapshot) ==> Applies(cfg, s, step)
  }

  /** The snapshot of the highest version delivered. */
  ghost predicate IsNewest(steps: seq<Step>, p: Payload) {
    && Delivered(steps, p)
    && (forall i :: 0 <= i < |steps| && steps[i].SnapshotArrives? ==> steps[i].snapshot.version <= p.version)
  }

  /** What is held after the first steps: the newest snapshot delivered, if there was one. */
  ghost predicate Holds(steps: seq<Step>, k: nat, last: Option<Payload>)
    requires k <= |steps|
  {
    if last.Some? then IsNewest(steps[..k], last.value) else forall i :: 0 <= i < k ==> !steps[i].SnapshotArrives?
  }

  lemma {:induction false} LastStep(cfg: Config, s: State, step: Step)
    requires Inv(cfg, s) && AppliesIfNew(cfg, s, step)
    ensures Next(cfg, s, step).last ==
            if step.SnapshotArrives? && (s.last.None? || s.last.value.version <= step.snapshot.version)
            then Some(step.snapshot) else s.last
  {
    hide RenderAll, Exact, Target, Loadable, CrashSafe;
  }

  lemma {:induction false} NewestGrows(steps: seq<Step>, k: nat, last: Option<Payload>)
    requires k < |steps| && Holds(steps, k, last)
    ensures Holds(steps, k + 1,
                  if steps[k].SnapshotArrives? && (last.None? || last.value.version <= steps[k].snapshot.version)
                  then Some(steps[k].snapshot) else last)
  {
    assert forall i :: 0 <= i < k ==> steps[..k][i] == steps[..k + 1][i] == steps[i];
    assert steps[..k + 1][k] == steps[k];
    if last.Some? {
      var i :| 0 <= i < k && steps[..k][i].SnapshotArrives? && steps[..k][i].snapshot == last.value;
      assert steps[..k + 1][i].snapshot == last.value;
      assert Delivered(steps[..k + 1], last.value);
    }
    if steps[k].SnapshotArrives? {
      assert steps[..k + 1][k].snapshot == steps[k].snapshot;
      assert Delivered(steps[..k + 1], steps[k].snapshot);
    }
  }

  lemma {:induction false} FollowsKeepsNewest(cfg: Config, run: seq<State>, steps: seq<Step>, k: nat)
    requires |run| == |steps| + 1 && AllValid(cfg, run, steps) && k < |steps| && Follows(cfg, run, steps, k)
    requires Inv(cfg, run[k]) && Holds(steps, k, run[k].last)
    ensures Holds(steps, k + 1, run[k + 1].last)
  {
    NewestGrows(steps, k, run[k].last);
    LastStep(cfg, run[k], steps[k]);
  }

  lemma {:induction false} NewestFrom(cfg: Config, run: seq<State>, steps: seq<Step>, k: nat)
    requires AllFollow(cfg, run, steps) && k <= |steps| && Inv(cfg, run[0]) && run[0].last.None?
    requires AllValid(cfg, run, steps)
    ensures Holds(steps, k, run[k].last)
    decreases k
  {
    if k > 0 {
      NewestFrom(cfg, run, steps, k - 1);
      InvFrom(cfg, run, steps, k - 1);
      FollowsKeepsNewest(cfg, run, steps, k - 1);
    }
  }

  /** However the snapshots arrive, the agent holds the newest of them. */
  lemma {:induction false} NewestWins(cfg: Config, d: Dir, run: seq<State>, steps: seq<Step>, k: nat)
    requires IsRun(cfg, d, run, steps) && AllValid(cfg, run, steps) && k <= |steps|
    ensures Holds(steps, k, run[k].last)
  {
    StartKeepsInv(cfg, d, run[0]);
    NewestFrom(cfg, run, steps, k);
  }

  ghost predicate SameManaged(d: Dir, d': Dir, prefix: string) {
    && Managed(d, prefix) == Managed(d', prefix)
    && (forall n :: n in Managed(d, prefix) ==> d[n] == d'[n])
  }

  lemma {:induction false} ExactIsUnique(d: Dir, d': Dir, prefix: string, outputs: seq<Output>)
    requires Exact(d, prefix, outputs) && Exact(d', prefix, outputs)
    ensures SameManaged(d, d', prefix)
  {
    forall n | n in Managed(d, prefix) ensures d[n] == d'[n] {
      assert Wanted(outputs, n);
      var i :| 0 <= i < |outputs| && outputs[i].name == n;
      assert UpToDate(d, outputs[i]) && UpToDate(d', outputs[i]);
    }
  }

  ghost predicate SameDeliveries(steps: seq<Step>, steps': seq<Step>) {
    forall p :: Delivered(steps, p) <==> Delivered(steps', p)
  }

  lemma {:induction false} SameNewest(steps: seq<Step>, steps': seq<Step>, p: Payload, p': Payload)
    requires SameDeliveries(steps, steps') && VersionsAgree(steps) && IsNewest(steps, p) && IsNewest(steps', p')
    ensures p == p'
  {
    assert Delivered(steps, p') && Delivered(steps', p);
    var i :| 0 <= i < |steps| && steps[i].SnapshotArrives? && steps[i].snapshot == p;
    var i' :| 0 <= i' < |steps| && steps[i'].SnapshotArrives? && steps[i'].snapshot == p';
    var j :| 0 <= j < |steps'| && steps'[j].SnapshotArrives? && steps'[j].snapshot == p;
    var j' :| 0 <= j' < |steps'| && steps'[j'].SnapshotArrives? && steps'[j'].snapshot == p';
    assert p'.version <= p.version && p.version <= p'.version;
  }

  /** Two agents that were delivered the same snapshots, in any order and any number of times and with any
      ticks, reconnects and reloads in between, end with the same files, if they end with the same templates
      and the same stale mark; and those are the files of the highest version. */
  lemma {:induction false} DeliveryConverges(cfg: Config, d: Dir, run: seq<State>, steps: seq<Step>, d': Dir,
          run': seq<State>, steps': seq<Step>, p: Payload)
    requires IsRun(cfg, d, run, steps) && AllValid(cfg, run, steps)
    requires IsRun(cfg, d', run', steps') && AllValid(cfg, run', steps')
    requires SameDeliveries(steps, steps') && VersionsAgree(steps) && IsNewest(steps, p)
    requires var s, s' := run[|steps|], run'[|steps'|];
             s.applied && s.settled && s'.applied && s'.settled && s.templates == s'.templates && s.stale == s'.stale
    ensures var s, s' := run[|steps|], run'[|steps'|];
            && SameManaged(s.dir, s'.dir, cfg.prefix)
            && var outputs := RenderAll(cfg.prefix, s.templates, DataFor(Some(p), s.stale));
               outputs.Some? && Exact(s.dir, cfg.prefix, outputs.value)
  {
    NewestAtEnd(cfg, d, run, steps, p);
    assert Delivered(steps', p);
    var i :| 0 <= i < |steps'| && steps'[i].SnapshotArrives? && steps'[i].snapshot == p;
    NewestWins(cfg, d', run', steps', |steps'|);
    assert steps'[..|steps'|] == steps';
    SameNewest(steps, steps', p, run'[|steps'|].last.value);
    FilesMatchState(cfg, d, run, steps, |steps|);
    FilesMatchState(cfg, d', run', steps', |steps'|);
    ExactIsUnique(run[|steps|].dir, run'[|steps'|].dir, cfg.prefix, Due(cfg, run[|steps|]).value);
  }

  lemma {:induction false} NewestAtEnd(cfg: Config, d: Dir, run: seq<State>, steps: seq<Step>, p: Payload)
    requires IsRun(cfg, d, run, steps) && AllValid(cfg, run, steps)
    requires VersionsAgree(steps) && IsNewest(steps, p)
    ensures run[|steps|].last == Some(p)
  {
    NewestWins(cfg, d, run, steps, |steps|);
    assert steps[..|steps|] == steps;
    var i :| 0 <= i < |steps| && steps[i].SnapshotArrives? && steps[i].snapshot == p;
    SameNewest(steps, steps, p, run[|steps|].last.value);
  }
}

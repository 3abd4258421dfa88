/** What each step of the agent does, in terms of what it holds and of what the templates are shown. */
module AgentSteps {
  import opened Options
  import opened Directory
  import Render
  import Snapshot
  import opened Agent
  import opened AgentRuns

  /** Every template renders, and what it renders is valid under the name it is written to. */
  ghost predicate AllRender(prefix: string, templates: seq<Template>, data: Render.Data) {
    forall i :: 0 <= i < |templates| ==> RendersWell(prefix, templates[i], data)
  }

  ghost predicate RendersWell(prefix: string, t: Template, data: Render.Data) {
    t.render(data).Some? && Validate(prefix + t.outputName, t.render(data).value)
  }

  lemma {:induction false} RenderSays(prefix: string, templates: seq<Template>, data: Render.Data)
    ensures RenderAll(prefix, templates, data).Some? <==> AllRender(prefix, templates, data)
  {
    if templates != [] {
      var n := |templates| - 1;
      RenderSays(prefix, templates[..n], data);
      assert forall i :: 0 <= i < n ==> templates[..n][i] == templates[i];
      assert RendersWell(prefix, templates[n], data) <==>
               && templates[n].render(data).Some?
               && Validate(prefix + templates[n].outputName, templates[n].render(data).value);
      hide RendersWell, Validate;
      assert AllRender(prefix, templates, data) <==>
               AllRender(prefix, templates[..n], data) && RendersWell(prefix, templates[n], data);
    }
  }

  /** The managed files are exactly what the templates render from the data, each under its name. */
  ghost predicate FilesShow(d: Dir, prefix: string, templates: seq<Template>, data: Render.Data) {
    && (forall i :: 0 <= i < |templates| ==> ShownBy(d, prefix, templates[i], data))
    && (forall n :: n in d && d[n].File? && ManagedName(prefix, n) ==>
          exists i :: 0 <= i < |templates| && n == prefix + templates[i].outputName)
  }

  ghost predicate ShownBy(d: Dir, prefix: string, t: Template, data: Render.Data) {
    && t.render(data).Some? && prefix + t.outputName in d
    && d[prefix + t.outputName] == File(t.render(data).value)
  }

  lemma {:induction false} ExactShows(d: Dir, prefix: string, templates: seq<Template>, data: Render.Data)
    requires RenderAll(prefix, templates, data).Some? && Exact(d, prefix, RenderAll(prefix, templates, data).value)
    ensures FilesShow(d, prefix, templates, data)
  {
    var outputs := RenderAll(prefix, templates, data).value;
    RenderedShape(prefix, templates, data);
    hide RenderAll;
    forall i | 0 <= i < |templates| ensures ShownBy(d, prefix, templates[i], data) {
      assert UpToDate(d, outputs[i]);
    }
    forall n | n in d && d[n].File? && ManagedName(prefix, n)
      ensures exists i :: 0 <= i < |templates| && n == prefix + templates[i].outputName
    {
      assert n in Managed(d, prefix) && Wanted(outputs, n);
    }
  }

  /** What the templates are shown: the snapshot, or nothing yet, and the mark. */
  ghost predicate ReflectsLast(data: Render.Data, last: Option<Payload>, stale: bool) {
    if last.Some? then Render.Reflects(data, last.value.content, last.value.version, stale)
    else data == Render.Data("", 0, stale, map[])
  }

  lemma {:induction false} DataReflectsLast(last: Option<Payload>, stale: bool)
    ensures ReflectsLast(DataFor(last, stale), last, stale)
  {
    if last.Some? {
      Render.DataReflects(last.value.content, last.value.version, stale);
    }
    hide Render.Reflects;
  }

  /** Rendering and applying, undisturbed. */
  lemma {:induction false} ApplyingSays(cfg: Config, s: State, data: Render.Data)
    requires ValidConfig(cfg) && Loadable(s.templates)
    ensures var a := Applying(cfg, s, data, None);
            if AllRender(cfg.prefix, s.templates, data) then
              && a.ok && a.state == s.(dir := a.state.dir, applied := true, settled := true)
              && FilesShow(a.state.dir, cfg.prefix, s.templates, data)
            else !a.ok && a.state == s
  {
    RenderSays(cfg.prefix, s.templates, data);
    hide AllRender, Exact, FilesShow, Target, RenderAll;
    if RenderAll(cfg.prefix, s.templates, data).Some? {
      AppliedIsExact(cfg, s.dir, s.templates, data);
      ExactShows(Target(s.dir, cfg.prefix, RenderAll(cfg.prefix, s.templates, data).value), cfg.prefix, s.templates,
                 data);
    }
  }

  /** The agent starts if its templates render with nothing at all. It begins disconnected, unmarked and without a
      snapshot, and leaves the files alone if any are there; otherwise they show nothing yet. */
  lemma {:induction false} StartSays(cfg: Config, templates: seq<Template>, cleaned: Dir, now: int)
    returns (nothing: Render.Data)
    requires ValidConfig(cfg) && Loadable(templates)
    ensures ReflectsLast(nothing, None, false)
    ensures Started(cfg, templates, cleaned, now).Some? <==> AllRender(cfg.prefix, templates, nothing)
    ensures var s := Started(cfg, templates, cleaned, now);
            s.Some? ==>
              var kept := exists n :: n in cleaned && cleaned[n].File? && ManagedName(cfg.prefix, n);
              && s.value.templates == templates && s.value.last == None && !s.value.haveApplied
              && !s.value.connected && !s.value.stale && s.value.offlineSince == now && s.value.applied == !kept
              && (if kept then s.value.dir == cleaned else FilesShow(s.value.dir, cfg.prefix, templates, nothing))
  {
    nothing := Render.EmptyData(false);
    DataReflectsLast(None, false);
    RenderSays(cfg.prefix, templates, nothing);
    ApplyingSays(cfg, Created(now, templates, cleaned), nothing);
    hide AllRender, ReflectsLast, FilesShow, RenderAll, Applying;
    if RenderAll(cfg.prefix, templates, nothing).Some? {
      assert Managed(cleaned, cfg.prefix) != {} ==> exists n :: n in Managed(cleaned, cfg.prefix);
    }
  }

  /** A snapshot that is not older than the applied one, and renders, is remembered with its version, clears the
      mark and restarts the clock, and the files show it unmarked; any other changes nothing. */
  lemma {:induction false} SnapshotSays(cfg: Config, s: State, p: Payload, now: int) returns (data: Render.Data)
    requires ValidConfig(cfg) && Loadable(s.templates)
    ensures ReflectsLast(data, Some(p), false)
    ensures var s' := Next(cfg, s, SnapshotArrives(p, now, None));
            if (s.haveApplied && p.version < s.appliedVersion) || !AllRender(cfg.prefix, s.templates, data) then s' == s
            else
              && s'.last == Some(p) && s'.appliedVersion == p.version && s'.haveApplied
              && !s'.stale && s'.offlineSince == now && s'.applied && s'.settled
              && s'.templates == s.templates && s'.connected == s.connected
              && FilesShow(s'.dir, cfg.prefix, s.templates, data)
  {
    data := DataFor(Some(p), false);
    DataReflectsLast(Some(p), false);
    ApplyingSays(cfg, s, data);
    hide AllRender, ReflectsLast, FilesShow, RenderAll, Applying;
  }

  /** A tick of an agent that is disconnected, not marked yet and past the maximum, if there is one, renders what it
      holds as stale: if that works, the files show it marked, and the agent is. Any other tick changes nothing. */
  lemma {:induction false} TickSays(cfg: Config, s: State, now: int) returns (data: Render.Data)
    requires ValidConfig(cfg) && Loadable(s.templates)
    ensures ReflectsLast(data, s.last, true)
    ensures var s' := Next(cfg, s, Tick(now, None));
            if cfg.maxOffline <= 0 || s.connected || s.stale || now - s.offlineSince <= cfg.maxOffline
               || !AllRender(cfg.prefix, s.templates, data) then s' == s
            else
              && s' == s.(stale := true, dir := s'.dir, applied := true, settled := true)
              && FilesShow(s'.dir, cfg.prefix, s.templates, data)
  {
    data := DataFor(s.last, true);
    DataReflectsLast(s.last, true);
    ApplyingSays(cfg, s, data);
    hide AllRender, ReflectsLast, FilesShow, RenderAll, Applying;
  }

  lemma {:induction false} ReloadInParts(cfg: Config, s: State, loaded: seq<Template>, now: int)
    ensures Next(cfg, s, Reload(Some(loaded), now, None)) ==
            if Accepted(cfg, s, loaded) then Applying(cfg, s.(templates := loaded), DataNow(s), None).state else s
  {
    hide Accepted, Applying, DataNow;
  }

  lemma {:induction false} AcceptedSays(cfg: Config, s: State, loaded: seq<Template>)
    ensures Accepted(cfg, s, loaded) <==>
              && AllRender(cfg.prefix, loaded, DataFor(None, false))
              && (s.last.Some? ==> AllRender(cfg.prefix, loaded, DataFor(s.last, s.stale)))
  {
    RenderSays(cfg.prefix, loaded, DataFor(None, false));
    RenderSays(cfg.prefix, loaded, DataFor(s.last, s.stale));
    hide AllRender, RenderAll, Render.EmptyData;
  }

  /** New templates are taken if they render with nothing at all, unmarked, and, if there is a snapshot, with that
      and the mark. If they then also render with what the agent holds, the files show it by them. */
  lemma {:induction false} ReloadSays(cfg: Config, s: State, loaded: seq<Template>, now: int)
    returns (nothing: Render.Data, data: Render.Data)
    requires ValidConfig(cfg) && Loadable(loaded)
    ensures ReflectsLast(nothing, None, false) && ReflectsLast(data, s.last, s.stale)
    ensures var s' := Next(cfg, s, Reload(Some(loaded), now, None));
            var renders := AllRender(cfg.prefix, loaded, data);
            if !AllRender(cfg.prefix, loaded, nothing) || (s.last.Some? && !renders) then s' == s
            else if !renders then s' == s.(templates := loaded)
            else
              && s' == s.(templates := loaded, dir := s'.dir, applied := true, settled := true)
              && FilesShow(s'.dir, cfg.prefix, loaded, data)
  {
    hide AllRender, ReflectsLast, FilesShow, Accepted, Applying, Next, DataFor, Loadable;
    nothing, data := DataFor(None, false), DataFor(s.last, s.stale);
    DataReflectsLast(None, false);
    DataReflectsLast(s.last, s.stale);
    AcceptedSays(cfg, s, loaded);
    ReloadInParts(cfg, s, loaded, now);
    ApplyingSays(cfg, s.(templates := loaded), data);
  }

  /** What is reported of a snapshot: an older one is ignored; one that does not render, or whose writing fails, has
      failed; and a success names every file with what the templates rendered from the snapshot, unmarked. */
  lemma {:induction false} ReportSays(cfg: Config, s: State, p: Payload, fault: Option<Dir>) returns (data: Render.Data)
    ensures ReflectsLast(data, Some(p), false)
    ensures var outcome := OutcomeOf(cfg, s, p, fault);
            if s.haveApplied && p.version < s.appliedVersion then outcome == IgnoredStale(s.stale)
            else if fault.Some? || !AllRender(cfg.prefix, s.templates, data) then outcome == Failed
            else
              && outcome.Succeeded? && |outcome.files| == |s.templates|
              && forall i :: 0 <= i < |s.templates| ==>
                   && outcome.files[i].name == cfg.prefix + s.templates[i].outputName
                   && s.templates[i].render(data) == Some(outcome.files[i].content)
  {
    data := DataFor(Some(p), false);
    DataReflectsLast(Some(p), false);
    RenderSays(cfg.prefix, s.templates, data);
    hide AllRender, ReflectsLast, RenderAll;
    if RenderAll(cfg.prefix, s.templates, data).Some? {
      RenderedShape(cfg.prefix, s.templates, data);
    }
  }

  /** In every run: after an apply that nothing has broken, the managed files are what the current templates make of
      the last snapshot, or of nothing yet, with the mark shown exactly if the agent is marked. */
  lemma {:induction false} FilesShowMark(cfg: Config, d: Dir, run: seq<State>, steps: seq<Step>, k: nat)
    returns (data: Render.Data)
    requires IsRun(cfg, d, run, steps) && k <= |steps|
    requires run[k].applied && run[k].settled && (run[k].last.Some? || !run[k].stale)
    ensures ReflectsLast(data, run[k].last, run[k].stale) && data.stale == run[k].stale
    ensures FilesShow(run[k].dir, cfg.prefix, run[k].templates, data)
  {
    var s := run[k];
    FilesMatchState(cfg, d, run, steps, k);
    data := DataFor(s.last, s.stale);
    DataReflectsLast(s.last, s.stale);
    ExactShows(s.dir, cfg.prefix, s.templates, data);
  }

  /** Where the mark was set by a tick, the files show it; where a snapshot was applied, they show that, unmarked. */
  lemma {:induction false} MarkIsShown(cfg: Config, d: Dir, run: seq<State>, steps: seq<Step>, i: nat)
    returns (data: Render.Data)
    requires IsRun(cfg, d, run, steps) && i < |steps|
    requires (!run[i].stale && run[i + 1].stale) || Applies(cfg, run[i], steps[i])
    ensures data.stale == run[i + 1].stale && ReflectsLast(data, run[i + 1].last, run[i + 1].stale)
    ensures FilesShow(run[i + 1].dir, cfg.prefix, run[i + 1].templates, data)
    ensures Applies(cfg, run[i], steps[i]) ==> !data.stale && run[i + 1].last == Some(steps[i].snapshot)
  {
    var s, step := run[i], steps[i];
    assert Follows(cfg, run, steps, i);
    FilesMatchState(cfg, d, run, steps, i);
    hide IsRun, Follows, Enabled, Exact, FilesShow, ReflectsLast, Target, RenderAll;
    if Applies(cfg, s, step) {
      data := AppliedShows(cfg, s, step);
    } else {
      StaleStep(cfg, s, step);
      data := TickSays(cfg, s, step.now);
      TickedSo(cfg, s, step);
      MarkOf(data, s.last, true);
    }
  }

  lemma {:induction false} MarkOf(data: Render.Data, last: Option<Payload>, stale: bool)
    requires ReflectsLast(data, last, stale)
    ensures data.stale == stale
  {
  }

  lemma {:induction false} TickedSo(cfg: Config, s: State, step: Step)
    requires !s.stale && Next(cfg, s, step).stale && step.Tick? && step.fault.None?
    ensures Next(cfg, s, step) != s && step == Tick(step.now, None)
  {
  }

  lemma {:induction false} AppliedShows(cfg: Config, s: State, step: Step) returns (data: Render.Data)
    requires ValidConfig(cfg) && Loadable(s.templates) && Applies(cfg, s, step)
    ensures var s' := Next(cfg, s, step);
            && !data.stale && !s'.stale && s'.last == Some(step.snapshot) && ReflectsLast(data, s'.last, false)
            && FilesShow(s'.dir, cfg.prefix, s'.templates, data)
  {
    data := DataFor(Some(step.snapshot), false);
    DataReflectsLast(Some(step.snapshot), false);
    MarkOf(data, Some(step.snapshot), false);
    hide ReflectsLast, Exact, FilesShow, Target, RenderAll;
    AppliedIsExact(cfg, s.dir, s.templates, data);
    ExactShows(Target(s.dir, cfg.prefix, RenderAll(cfg.prefix, s.templates, data).value), cfg.prefix, s.templates,
               data);
  }
}

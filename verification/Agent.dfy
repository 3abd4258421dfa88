/** The agent: what it renders, when, and what it remembers. */
module Agent {
  import opened Options
  import Ordering
  import opened Directory
  import opened OutputDirectory
  import opened Render
  import TraefikProvider

  type Payload = TraefikProvider.Payload

  type Correlation = TraefikProvider.Correlation

  /** A loaded template; executing it may fail. */
  datatype Template = Template(file: string, outputName: string, render: Data -> Option<Bytes>)

  datatype Config = Config(prefix: string, maxOffline: int)

  predicate ValidConfig(cfg: Config) {
    cfg.prefix != "" && cfg.prefix[0] != '.'
  }

  /** What loading a directory of templates guarantees. */
  ghost predicate Loadable(templates: seq<Template>) {
    && templates != []
    && (forall i, j :: 0 <= i < j < |templates| ==> templates[i].outputName != templates[j].outputName)
  }

  /** A file in the templates directory; parsing it may fail. */
  datatype Source = Source(template: Option<Template>)

  /** The templates among the files, in the order of their file names, in which the directory lists them;
      nothing if one cannot be parsed, two produce the same output, or there is none. */
  method LoadDir(sources: seq<Source>) returns (templates: Option<seq<Template>>)
    ensures templates.Some? ==> Loadable(templates.value) && |templates.value| == |sources|
                                && forall i :: 0 <= i < |sources| ==> sources[i].template == Some(templates.value[i])
    ensures templates.None? ==>
              || sources == [] || (exists i :: 0 <= i < |sources| && sources[i].template.None?)
              || (exists i, j :: 0 <= i < j < |sources| && sources[i].template.Some? && sources[j].template.Some?
                    && sources[i].template.value.outputName == sources[j].template.value.outputName)
  {
    var loaded: seq<Template> := [];
    var seen: map<string, string> := map[];
    for k := 0 to |sources|
      invariant |loaded| == k && forall i :: 0 <= i < k ==> sources[i].template == Some(loaded[i])
      invariant forall i, j :: 0 <= i < j < k ==> loaded[i].outputName != loaded[j].outputName
      invariant forall o :: o in seen <==> exists i :: 0 <= i < k && loaded[i].outputName == o
    {
      if sources[k].template.None? {
        return None;
      }
      var t := sources[k].template.value;
      if t.outputName in seen {
        return None;
      }
      seen := seen[t.outputName := t.file];
      loaded := loaded + [t];
    }
    templates := if loaded == [] then None else Some(loaded);
  }

  /** Every template rendered and validated, or nothing. */
  function RenderAll(prefix: string, templates: seq<Template>, data: Data): Option<seq<Output>> {
    if templates == [] then Some([]) else
      var t := templates[|templates| - 1];
      var earlier := RenderAll(prefix, templates[..|templates| - 1], data);
      var content := t.render(data);
      if earlier.None? || content.None? || !Validate(prefix + t.outputName, content.value) then None
      else Some(earlier.value + [Output(prefix + t.outputName, content.value)])
  }

  lemma {:induction false} RenderFailsEarly(prefix: string, templates: seq<Template>, data: Data, k: nat)
    requires k <= |templates| && RenderAll(prefix, templates[..k], data).None?
    ensures RenderAll(prefix, templates, data).None?
  {
    if k < |templates| {
      assert templates[..|templates| - 1][..k] == templates[..k];
      RenderFailsEarly(prefix, templates[..|templates| - 1], data, k);
    } else {
      assert templates[..k] == templates;
    }
  }

  lemma {:induction false} RenderedShape(prefix: string, templates: seq<Template>, data: Data)
    requires RenderAll(prefix, templates, data).Some?
    ensures var outputs := RenderAll(prefix, templates, data).value;
            && |outputs| == |templates|
            && (forall i :: 0 <= i < |outputs| ==>
                  outputs[i].name == prefix + templates[i].outputName
                  && templates[i].render(data) == Some(outputs[i].content)
                  && Validate(outputs[i].name, outputs[i].content))
  {
    if templates != [] {
      var n := |templates| - 1;
      RenderedShape(prefix, templates[..n], data);
      assert forall i :: 0 <= i < n ==> templates[..n][i] == templates[i];
    }
  }

  lemma {:induction false} RenderedLength(prefix: string, templates: seq<Template>, data: Data)
    requires RenderAll(prefix, templates, data).Some?
    ensures |RenderAll(prefix, templates, data).value| == |templates|
  {
    RenderedShape(prefix, templates, data);
  }

  lemma {:induction false} PrefixOf(prefix: string, rest: string)
    ensures prefix <= prefix + rest && (prefix + rest)[|prefix|..] == rest
  {
  }

  /** So no Apply refuses what was rendered. */
  lemma {:induction false} RenderedIsAcceptable(cfg: Config, templates: seq<Template>, data: Data)
    requires ValidConfig(cfg) && Loadable(templates) && RenderAll(cfg.prefix, templates, data).Some?
    ensures Acceptable(cfg.prefix, RenderAll(cfg.prefix, templates, data).value)
    ensures Refusal(cfg.prefix, RenderAll(cfg.prefix, templates, data).value).None?
  {
    var outputs := RenderAll(cfg.prefix, templates, data).value;
    RenderedShape(cfg.prefix, templates, data);
    forall i | 0 <= i < |outputs| ensures cfg.prefix <= outputs[i].name {
      PrefixOf(cfg.prefix, templates[i].outputName);
    }
    forall i, j | 0 <= i < j < |outputs| ensures outputs[i].name != outputs[j].name {
      PrefixOf(cfg.prefix, templates[i].outputName);
      PrefixOf(cfg.prefix, templates[j].outputName);
    }
    RefusalSays(cfg.prefix, outputs);
  }

  // ---- The agent on values

  /** What the agent holds; `applied` says whether an Apply ever succeeded, `settled` whether none failed
      half-way since the last one that succeeded. */
  datatype State = State(
    templates: seq<Template>,
    last: Option<Payload>,
    appliedVersion: nat,
    haveApplied: bool,
    connected: bool,
    offlineSince: int,
    stale: bool,
    dir: Dir,
    applied: bool,
    settled: bool)

  function DataFor(last: Option<Payload>, stale: bool): Data {
    if last.Some? then DataOf(last.value.content, last.value.version, stale) else EmptyData(stale)
  }

  function DataNow(s: State): Data {
    DataFor(s.last, s.stale)
  }

  datatype Attempt = Attempt(state: State, ok: bool)

  /** Rendering and applying. A fault is the directory left behind when a call fails on the way. */
  ghost function Applying(cfg: Config, s: State, data: Data, fault: Option<Dir>): Attempt {
    var outputs := RenderAll(cfg.prefix, s.templates, data);
    if outputs.None? then Attempt(s, false)
    else if fault.Some? then Attempt(s.(dir := fault.value, settled := false), false)
    else Attempt(s.(dir := Target(s.dir, cfg.prefix, outputs.value), applied := true, settled := true), true)
  }

  datatype Step =
    | Connected(now: int)
    | Disconnected(now: int)
    | SnapshotArrives(snapshot: Payload, now: int, fault: Option<Dir>)
    | Tick(now: int, fault: Option<Dir>)
    | Reload(loaded: Option<seq<Template>>, now: int, fault: Option<Dir>)

  predicate Outdated(s: State, snapshot: Payload) {
    s.haveApplied && snapshot.version < s.appliedVersion
  }

  predicate Overdue(cfg: Config, s: State, now: int) {
    && cfg.maxOffline > 0 && !s.connected && !s.stale
    && now - s.offlineSince > cfg.maxOffline
  }

  /** The new templates render with nothing at all, and with the last snapshot if there is one. */
  predicate Accepted(cfg: Config, s: State, templates: seq<Template>) {
    && RenderAll(cfg.prefix, templates, EmptyData(false)).Some?
    && (s.last.Some? ==> RenderAll(cfg.prefix, templates, DataNow(s)).Some?)
  }

  ghost function Next(cfg: Config, s: State, step: Step): State {
    match step
    case Connected(_) => s.(connected := true)
    case Disconnected(now) => s.(connected := false, offlineSince := now)
    case SnapshotArrives(snapshot, now, fault) =>
      if Outdated(s, snapshot) then s else
        var a := Applying(cfg, s, DataFor(Some(snapshot), false), fault);
        if !a.ok then a.state
        else a.state.(last := Some(snapshot), appliedVersion := snapshot.version, haveApplied := true, stale := false,
                      offlineSince := now)
    case Tick(now, fault) =>
      if !Overdue(cfg, s, now) then s else
        var a := Applying(cfg, s, DataFor(s.last, true), fault);
        if a.ok then a.state.(stale := true) else a.state
    case Reload(loaded, _, fault) =>
      if loaded.None? || !Accepted(cfg, s, loaded.value) then s
      else Applying(cfg, s.(templates := loaded.value), DataNow(s), fault).state
  }

  function Created(now: int, templates: seq<Template>, dir: Dir): State {
    State(templates, None, 0, false, false, now, false, dir, false, true)
  }

  /** The start: nothing if it fails. Existing managed files are kept until data arrives. */
  ghost function Started(cfg: Config, templates: seq<Template>, cleaned: Dir, now: int): Option<State> {
    var s := Created(now, templates, cleaned);
    if RenderAll(cfg.prefix, templates, EmptyData(false)).None? then None
    else if Managed(cleaned, cfg.prefix) != {} then Some(s)
    else Some(Applying(cfg, s, EmptyData(false), None).state)
  }

  // ---- The agent as it runs

  datatype Outcome = Succeeded(files: seq<Output>) | IgnoredStale(stale: bool) | Failed

  datatype Report = Report(version: nat, correlationId: Correlation, outcome: Outcome)

  /** What is reported: a success names exactly the files rendered from the snapshot. */
  ghost function OutcomeOf(cfg: Config, s: State, snapshot: Payload, fault: Option<Dir>): Outcome {
    var outputs := RenderAll(cfg.prefix, s.templates, DataFor(Some(snapshot), false));
    if Outdated(s, snapshot) then IgnoredStale(s.stale)
    else if outputs.None? || fault.Some? then Failed
    else Succeeded(outputs.value)
  }

  class Process {
    const cfg: Config
    const dir: OutputDir
    var templates: seq<Template>
    var last: Option<Payload>
    var appliedVersion: nat
    var haveApplied: bool
    var connected: bool
    var offlineSince: int
    var stale: bool
    ghost var applied: bool
    ghost var settled: bool

    ghost predicate Valid()
      reads this, dir
    {
      ValidConfig(cfg) && dir.Valid()
    }

    ghost function View(): State
      reads this, dir
    {
      State(templates, last, appliedVersion, haveApplied, connected, offlineSince, stale, dir.files, applied, settled)
    }

    constructor (cfg: Config, dir: OutputDir, now: int)
      requires ValidConfig(cfg) && dir.Valid()
      ensures Valid() && this.cfg == cfg && this.dir == dir
      ensures View() == Created(now, [], dir.files)
    {
      this.cfg, this.dir := cfg, dir;
      templates, last, appliedVersion, haveApplied := [], None, 0, false;
      connected, offlineSince, stale := false, now, false;
      applied, settled := false, true;
    }

    method Render(templates: seq<Template>, data: Data) returns (outputs: Option<seq<Output>>)
      ensures outputs == RenderAll(cfg.prefix, templates, data)
    {
      var done: seq<Output> := [];
      for i := 0 to |templates|
        invariant RenderAll(cfg.prefix, templates[..i], data) == Some(done)
      {
        assert templates[..i + 1][..i] == templates[..i];
        var t := templates[i];
        var content := t.render(data);
        if content.None? || !Validate(cfg.prefix + t.outputName, content.value) {
          RenderFailsEarly(cfg.prefix, templates, data, i + 1);
          return None;
        }
        done := done + [Output(cfg.prefix + t.outputName, content.value)];
      }
      assert templates[..|templates|] == templates;
      outputs := Some(done);
    }

    /** Renders and applies; a failing call leaves the directory somewhere on the way. */
    method ApplyLocked(data: Data, randoms: seq<string>)
      returns (outputs: Option<seq<Output>>, ghost fault: Option<Dir>)
      requires Valid() && Loadable(templates) && |randoms| == |templates|
      modifies dir, `applied, `settled
      ensures Valid()
      ensures var a := Applying(cfg, old(View()), data, fault);
              View() == a.state && outputs == (if a.ok then RenderAll(cfg.prefix, templates, data) else None)
      ensures FaultOnPath(cfg, old(View()), data, randoms, fault)
    {
      fault := None;
      outputs := Render(templates, data);
      if outputs.None? {
        return;
      }
      RenderedLength(cfg.prefix, templates, data);
      ghost var first, before := dir.files, dir.calls;
      var error, written, removed := dir.Apply(cfg.prefix, outputs.value, randoms);
      settled := error.None?;
      if error.None? {
        applied := true;
      } else {
        JourneyEnds(dir.start, before, dir.calls, ApplyOps(first, cfg.prefix, outputs.value, randoms));
        fault := Some(dir.files);
        outputs := None;
      }
    }

    /** Loads the templates, cleans up, and renders empty groups if there are no files yet. */
    method Start(loaded: Option<seq<Template>>, randoms: seq<string>) returns (ok: bool)
      requires Valid() && (loaded.Some? ==> Loadable(loaded.value) && |randoms| == |loaded.value|)
      requires View() == Created(offlineSince, [], dir.files)
      modifies this, dir
      ensures Valid() && (ok ==> loaded.Some?)
      ensures loaded.None? || RenderAll(cfg.prefix, loaded.value, EmptyData(false)).None? ==>
                !ok && View() == old(View())
      ensures !ok ==> exists cleaned ::
                && LeftByCleanup(old(dir.files), cleaned, cfg.prefix)
                && (|| dir.files == cleaned
                    || (loaded.Some?
                        && FaultOnPath(cfg, Created(old(offlineSince), loaded.value, cleaned), EmptyData(false),
                                                    randoms, Some(dir.files))))
      ensures ok ==> exists cleaned ::
                && LeftByCleanup(old(dir.files), cleaned, cfg.prefix)
                && Started(cfg, loaded.value, cleaned, old(offlineSince)) == Some(View())
    {
      ok := false;
      ghost var before := dir.files;
      assert LeftByCleanup(before, before, cfg.prefix);
      if loaded.None? {
        return false;
      }
      var probe := Render(loaded.value, EmptyData(false));
      if probe.None? {
        return false;
      }
      templates := loaded.value;
      var _ := dir.CleanupTemp(cfg.prefix);
      ghost var cleaned := dir.files;
      var listed, names := dir.ListManaged(cfg.prefix);
      if !listed {
        return false;
      }
      NoneListed(cleaned, cfg.prefix, names);
      if |names| > 0 {
        return true;
      }
      assert View() == Created(old(offlineSince), loaded.value, cleaned);
      var outputs, fault := ApplyLocked(EmptyData(false), randoms);
      ok := outputs.Some?;
      assert ok ==> Started(cfg, loaded.value, cleaned, old(offlineSince)) == Some(View());
    }

    method OnConnected(now: int)
      requires Valid()
      modifies this
      ensures Valid() && View() == Next(cfg, old(View()), Connected(now))
      ensures View() == old(View()).(connected := true)
    {
      connected := true;
    }

    method OnDisconnected(now: int)
      requires Valid()
      modifies this
      ensures Valid() && View() == Next(cfg, old(View()), Disconnected(now))
      ensures View() == old(View()).(connected := false, offlineSince := now)
    {
      connected := false;
      offlineSince := now;
    }

    /** Older versions are ignored; everything else is rendered, validated and written. */
    method OnSnapshot(snapshot: Payload, now: int, randoms: seq<string>)
      returns (report: Report, ghost fault: Option<Dir>)
      requires Valid() && Loadable(templates) && |randoms| == |templates|
      modifies this, dir
      ensures Valid() && View() == Next(cfg, old(View()), SnapshotArrives(snapshot, now, fault))
      ensures LeavesOnPath(cfg, old(View()), SnapshotArrives(snapshot, now, fault), randoms)
      ensures report.version == snapshot.version && report.correlationId == snapshot.correlationId
      ensures report.outcome == OutcomeOf(cfg, old(View()), snapshot, fault)
    {
      if haveApplied && snapshot.version < appliedVersion {
        return Report(snapshot.version, snapshot.correlationId, IgnoredStale(stale)), None;
      }
      var outputs;
      outputs, fault := ApplySnapshot(snapshot, now, randoms);
      report :=
        Report(snapshot.version, snapshot.correlationId, if outputs.Some? then Succeeded(outputs.value) else Failed);
    }

    method ApplySnapshot(snapshot: Payload, now: int, randoms: seq<string>)
      returns (outputs: Option<seq<Output>>, ghost fault: Option<Dir>)
      requires Valid() && Loadable(templates) && |randoms| == |templates|
      requires !Outdated(View(), snapshot)
      modifies this, dir
      ensures Valid() && View() == Next(cfg, old(View()), SnapshotArrives(snapshot, now, fault))
      ensures outputs == if fault.Some? then None
                         else RenderAll(cfg.prefix, old(templates), DataFor(Some(snapshot), false))
      ensures LeavesOnPath(cfg, old(View()), SnapshotArrives(snapshot, now, fault), randoms)
    {
      hide RenderAll, FaultOnPath, Target, Loadable;
      var data := DataFrom(snapshot.content, snapshot.version, false);
      outputs, fault := ApplyLocked(data, randoms);
      if outputs.None? {
        return;
      }
      last := Some(snapshot);
      appliedVersion := snapshot.version;
      haveApplied := true;
      stale := false;
      offlineSince := now;
    }

    method Current(isStale: bool) returns (data: Data)
      ensures data == DataFor(last, isStale)
    {
      if last.Some? {
        data := DataFrom(last.value.content, last.value.version, isStale);
      } else {
        data := EmptyData(isStale);
      }
    }

    method OnTick(now: int, randoms: seq<string>) returns (ghost fault: Option<Dir>)
      requires Valid() && Loadable(templates) && |randoms| == |templates|
      modifies this, dir
      ensures Valid() && View() == Next(cfg, old(View()), Tick(now, fault))
      ensures LeavesOnPath(cfg, old(View()), Tick(now, fault), randoms)
    {
      fault := None;
      if cfg.maxOffline <= 0 || connected || stale {
        return;
      }
      if now - offlineSince <= cfg.maxOffline {
        return;
      }
      var data := Current(true);
      var outputs;
      outputs, fault := ApplyLocked(data, randoms);
      if outputs.Some? {
        stale := true;
      }
    }

    /** Swaps in changed templates only if they render with the last snapshot and with an empty one. */
    method OnReload(loaded: Option<seq<Template>>, now: int, randoms: seq<string>)
      returns (ok: bool, ghost fault: Option<Dir>)
      requires Valid() && (loaded.Some? ==> Loadable(loaded.value) && |randoms| == |loaded.value|)
      modifies this, dir
      ensures Valid() && View() == Next(cfg, old(View()), Reload(loaded, now, fault))
      ensures LeavesOnPath(cfg, old(View()), Reload(loaded, now, fault), randoms)
      ensures ok <==> loaded.Some? && Accepted(cfg, old(View()), loaded.value)
                      && Applying(cfg, old(View()).(templates := loaded.value), old(DataNow(View())), fault).ok
    {
      fault, ok := None, false;
      if loaded.None? {
        return;
      }
      var accepted := Accepts(loaded.value);
      if !accepted {
        return;
      }
      ok, fault := Swap(loaded.value, randoms);
    }

    method Swap(loaded: seq<Template>, randoms: seq<string>) returns (ok: bool, ghost fault: Option<Dir>)
      requires Valid() && Loadable(loaded) && |randoms| == |loaded|
      modifies this, dir
      ensures Valid()
      ensures var s, data := old(View()).(templates := loaded), old(DataNow(View()));
              && View() == Applying(cfg, s, data, fault).state && (ok <==> Applying(cfg, s, data, fault).ok)
              && FaultOnPath(cfg, s, data, randoms, fault)
    {
      hide RenderAll, FaultOnPath, Loadable;
      ghost var before := View();
      var data := Current(stale);
      templates := loaded;
      assert View() == before.(templates := loaded);
      var outputs;
      outputs, fault := ApplyLocked(data, randoms);
      ok := outputs.Some?;
    }

    method Accepts(loaded: seq<Template>) returns (accepted: bool)
      ensures accepted <==> Accepted(cfg, View(), loaded)
    {
      var probe := Render(loaded, EmptyData(false));
      if probe.None? {
        return false;
      }
      if last.Some? {
        var data := Current(stale);
        probe := Render(loaded, data);
        if probe.None? {
          return false;
        }
      }
      accepted := true;
    }
  }

  /** A failure leaves a state that the undisturbed calls pass through. */
  ghost predicate FaultOnPath(cfg: Config, s: State, data: Data, randoms: seq<string>, fault: Option<Dir>) {
    fault.Some? ==>
      var outputs := RenderAll(cfg.prefix, s.templates, data);
      outputs.Some? && |outputs.value| == |randoms|
      && OnPath(s.dir, fault.value, ApplyOps(s.dir, cfg.prefix, outputs.value, randoms))
  }

  /** The directory that a failing call of this step leaves behind. */
  ghost predicate LeavesOnPath(cfg: Config, s: State, step: Step, randoms: seq<string>) {
    match step
    case SnapshotArrives(snapshot, _, fault) => FaultOnPath(cfg, s, DataFor(Some(snapshot), false), randoms, fault)
    case Tick(_, fault) => FaultOnPath(cfg, s, DataFor(s.last, true), randoms, fault)
    case Reload(loaded, _, fault) => loaded.Some? ==>
      FaultOnPath(cfg, s.(templates := loaded.value), DataNow(s), randoms, fault)
    case _ => true
  }

  lemma {:induction false} JourneyEnds(start: Dir, before: seq<Op>, after: seq<Op>, ops: seq<Op>)
    requires Journey(start, before, after, ops)
    ensures OnPath(DoAll(start, before), DoAll(start, after), ops)
  {
    var made := after[|before|..];
    assert before + made == after && made[..|made|] == made;
    DoAllConcat(start, before, made);
    assert OnPath(DoAll(start, before), DoAll(DoAll(start, before), made[..|made|]), ops);
  }

  lemma {:induction false} NoneListed(d: Dir, prefix: string, names: seq<string>)
    requires names == Ordering.Strings(Managed(d, prefix))
    ensures |names| > 0 <==> Managed(d, prefix) != {}
  {
    Ordering.StringsList(Managed(d, prefix));
    if |names| > 0 {
      assert names[0] in Managed(d, prefix);
    }
  }
}

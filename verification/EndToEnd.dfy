/** From the account to the files: publication and agent together. */
module EndToEnd {
  import opened Options
  import Directory
  import Render
  import Snapshot
  import T = TraefikProvider
  import P = Publication
  import Versions
  import FinalState
  import WireSize
  import A = Agent
  import R = AgentRuns
  import AgentSteps

  /** Everything this agent was sent had been handed out by the publisher: to this or an earlier session, once
      or several times, in any order. */
  ghost predicate SentFrom(steps: seq<A.Step>, handed: seq<T.Payload>) {
    forall p :: R.Delivered(steps, p) ==> p in handed
  }

  lemma {:induction false} HandedAgree(p: string, fits: Snapshot.Content -> bool, run: seq<P.System>,
          steps: seq<P.Step>, agentSteps: seq<A.Step>)
    requires P.IsRun(p, fits, run, steps) && SentFrom(agentSteps, run[|steps|].handed)
    ensures R.VersionsAgree(agentSteps)
  {
    var handed := run[|steps|].handed;
    forall x, y | R.Delivered(agentSteps, x) && R.Delivered(agentSteps, y) && x.version == y.version ensures x == y {
      var i :| 0 <= i < |handed| && handed[i] == x;
      var j :| 0 <= j < |handed| && handed[j] == y;
      if i <= j {
        Versions.VersionDeterminesSnapshot(p, fits, run, steps, i, j);
      } else {
        Versions.VersionDeterminesSnapshot(p, fits, run, steps, j, i);
      }
    }
  }

  lemma {:induction false} LastIsNewest(p: string, fits: Snapshot.Content -> bool, run: seq<P.System>,
          steps: seq<P.Step>, agentSteps: seq<A.Step>, last: T.Payload)
    requires P.IsRun(p, fits, run, steps) && SentFrom(agentSteps, run[|steps|].handed)
    requires T.Replay(run[|steps|].stream).lastPublished.Some?
    requires last == Versions.PayloadOf(T.Replay(run[|steps|].stream).lastPublished.value)
    requires R.Delivered(agentSteps, last)
    ensures R.IsNewest(agentSteps, last)
  {
    Versions.InvHolds(p, fits, run, steps, |steps|);
    var s := run[|steps|];
    forall i | 0 <= i < |agentSteps| && agentSteps[i].SnapshotArrives?
      ensures agentSteps[i].snapshot.version <= last.version {
      assert R.Delivered(agentSteps, agentSteps[i].snapshot);
      var j :| 0 <= j < |s.handed| && s.handed[j] == agentSteps[i].snapshot;
      assert s.handed[j].version <= last.version;
    }
  }

  lemma {:induction false} ShownData(cfg: A.Config, a: A.State, last: T.Payload) returns (data: Render.Data)
    requires a.last == Some(last) && R.Inv(cfg, a) && a.applied && a.settled
    ensures data == Render.DataOf(last.content, last.version, a.stale)
    ensures Render.Reflects(data, last.content, last.version, a.stale)
    ensures A.RenderAll(cfg.prefix, a.templates, data).Some?
    ensures R.Exact(a.dir, cfg.prefix, A.RenderAll(cfg.prefix, a.templates, data).value)
    ensures AgentSteps.FilesShow(a.dir, cfg.prefix, a.templates, data)
  {
    data := Render.DataOf(last.content, last.version, a.stale);
    Render.DataReflects(last.content, last.version, a.stale);
    AgentSteps.ExactShows(a.dir, cfg.prefix, a.templates, data);
  }

  /** Whatever races led there on either side: once nothing is pending for an active provider, an agent that was
      sent the last published snapshot holds, under every key and in canonical order, exactly the addresses of
      the devices that are delivered there now, and its managed files are exactly the rendering of that. */
  lemma {:induction false} FilesShowCurrentState(p: string, limit: nat, run: seq<P.System>, steps: seq<P.Step>, i: nat,
          cfg: A.Config, d: Directory.Dir, agentRun: seq<A.State>, agentSteps: seq<A.Step>, key: string)
    returns (ids: seq<string>, data: Render.Data)
    requires P.IsRun(p, T.WithinLimit(limit), run, steps) && i <= |steps|
    requires i == 0 || FinalState.Stands(p, T.WithinLimit(limit), run[i])
    requires forall k :: i <= k < |steps| ==> !FinalState.Breaks(p, T.WithinLimit(limit), run[k], steps[k])
    requires R.IsRun(cfg, d, agentRun, agentSteps) && R.AllValid(cfg, agentRun, agentSteps)
    requires var s := run[|steps|];
             && !s.coordinator.stopped && s.coordinator.entry == None && s.tasks == map[]
             && T.Replay(s.stream).status == T.Active
             && WireSize.JsonSize(Snapshot.Content(T.Replay(s.stream).name, Snapshot.Groups(s.world, p))) <= limit
             && T.Replay(s.stream).lastPublished.Some?
             && SentFrom(agentSteps, s.handed)
             && R.Delivered(agentSteps, Versions.PayloadOf(T.Replay(s.stream).lastPublished.value))
    requires agentRun[|agentSteps|].applied && agentRun[|agentSteps|].settled
    ensures var s, a := run[|steps|], agentRun[|agentSteps|];
            var last := Versions.PayloadOf(T.Replay(s.stream).lastPublished.value);
            && a.last == Some(last) && Render.Reflects(data, last.content, last.version, a.stale)
            && A.RenderAll(cfg.prefix, a.templates, data).Some?
            && R.Exact(a.dir, cfg.prefix, A.RenderAll(cfg.prefix, a.templates, data).value)
            && AgentSteps.FilesShow(a.dir, cfg.prefix, a.templates, data)
            && Snapshot.Canonical(s.world, p, key, ids)
            && Render.AllIps(Render.Under(data.groups, key)) == Render.DeviceIps(ids, s.world)
  {
    var s := run[|steps|];
    var fits := T.WithinLimit(limit);
    var last := Versions.PayloadOf(T.Replay(s.stream).lastPublished.value);
    FinalState.QuietMeansCurrent(p, fits, run, steps, i);
    HandedAgree(p, fits, run, steps, agentSteps);
    LastIsNewest(p, fits, run, steps, agentSteps, last);
    R.NewestAtEnd(cfg, d, agentRun, agentSteps, last);
    R.FilesMatchState(cfg, d, agentRun, agentSteps, |agentSteps|);
    ids := Render.SnapshotReachesTemplates(s.world, p, key);
    data := ShownData(cfg, agentRun[|agentSteps|], last);
  }
}

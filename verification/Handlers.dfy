/** The callers: each loads a stream, decides, appends under the length it read plus one, and schedules. */
module Handlers {
  import opened Options
  import Streams = EventStreams
  import Action
  import IpClient
  import Snapshot
  import Coordinator

  /** Appends under the number after the last one that was read: rejected if others were faster. */
  method AppendAfter<E>(store: Streams.PostgresEventStore<E>, stream: string, read: nat, event: E) returns (ok: bool)
    requires Streams.GapFree(store.table, stream) && read <= |Streams.History(store.table, stream)|
    modifies store
    ensures ok <==> read == |old(Streams.History(store.table, stream))|
    ensures Streams.GapFree(store.table, stream)
    ensures Streams.History(store.table, stream) ==
              old(Streams.History(store.table, stream)) + (if ok then [event] else [])
  {
    Streams.AppendExtends(store.table, stream, event);
    hide Streams.History;
    ok := store.Append(stream, read + 1, event);
  }

  /** What others append to the stream in the meantime. */
  method OthersAppend<E>(store: Streams.PostgresEventStore<E>, stream: string, events: seq<E>)
    requires Streams.GapFree(store.table, stream)
    modifies store
    ensures Streams.GapFree(store.table, stream)
    ensures Streams.History(store.table, stream) == old(Streams.History(store.table, stream)) + events
  {
    hide Streams.History, Streams.GapFree;
    for i := 0 to |events|
      invariant Streams.GapFree(store.table, stream)
      invariant Streams.History(store.table, stream) == old(Streams.History(store.table, stream)) + events[..i]
    {
      var h := store.ReadStream(stream);
      var _ := AppendAfter(store, stream, |h|, events[i]);
      assert events[..i + 1] == events[..i] + [events[i]];
    }
    assert events[..|events|] == events;
  }

  /** The providers among the given states of an action: its current one, and the previous one on a move. */
  ghost predicate PointedAt(states: seq<Option<Action.State>>, provider: string) {
    exists i :: 0 <= i < |states| && states[i].Some? && provider in Snapshot.DeliveryTarget(states[i].value)
  }

  method ScheduleDelivery(coordinator: Coordinator.SnapshotCoordinator, account: string,
          states: seq<Option<Action.State>>)
    modifies coordinator
    ensures coordinator.stopped == old(coordinator.stopped)
    ensures forall p :: coordinator.Entry(p) ==
                        if PointedAt(states, p) && !old(coordinator.stopped)
                        then Some(Coordinator.Triggered(old(coordinator.Entry(p)), account, None))
                        else old(coordinator.Entry(p))
  {
    var ids: seq<string> := [];
    for i := 0 to |states|
      invariant forall p :: p in ids <==> PointedAt(states[..i], p)
      invariant coordinator.stopped == old(coordinator.stopped) && coordinator.pending == old(coordinator.pending)
    {
      PointedAtGrows(states, i);
      if states[i].Some? && states[i].value.kind == Some(Action.TraefikDelivery) && states[i].value.config.Some?
         && states[i].value.config.value.Delivery? {
        ids := ids + [states[i].value.config.value.traefikProviderId];
      }
    }
    assert states[..|states|] == states;
    if |ids| > 0 {
      coordinator.Schedule(account, ids, None);
    }
  }

  lemma {:induction false} PointedAtGrows(states: seq<Option<Action.State>>, i: nat)
    requires i < |states|
    ensures forall p :: PointedAt(states[..i + 1], p) <==>
              PointedAt(states[..i], p) || (states[i].Some? && p in Snapshot.DeliveryTarget(states[i].value))
  {
    forall p
      ensures PointedAt(states[..i + 1], p) <==>
              PointedAt(states[..i], p) || (states[i].Some? && p in Snapshot.DeliveryTarget(states[i].value))
    {
      if PointedAt(states[..i], p) {
        var j :| 0 <= j < i && states[..i][j].Some? && p in Snapshot.DeliveryTarget(states[..i][j].value);
        assert states[..i + 1][j] == states[j];
      }
      assert states[..i + 1][i] == states[i];
    }
  }

  /** The providers of a device, from the listed delivery actions, each once. */
  method ProvidersOfDevice(w: Snapshot.World, actionIds: seq<string>, device: string) returns (ids: seq<string>)
    requires forall a :: a in actionIds <==> a in w.actions
    ensures forall p :: p in ids <==> p in Snapshot.ProvidersOfDevice(w, device)
    ensures forall i, j :: 0 <= i < j < |ids| ==> ids[i] != ids[j]
  {
    var actions := Snapshot.ListDeliveryActions(w, actionIds);
    ids := [];
    for i := 0 to |actions|
      invariant forall p :: p in ids <==>
                  exists j :: 0 <= j < i && actions[j].ipClientId == device && actions[j].traefikProviderId == p
      invariant forall i, j :: 0 <= i < j < |ids| ==> ids[i] != ids[j]
    {
      if actions[i].ipClientId == device && actions[i].traefikProviderId !in ids {
        ids := ids + [actions[i].traefikProviderId];
      }
    }
    forall p ensures p in ids <==> p in Snapshot.ProvidersOfDevice(w, device) {
      if p in ids {
        var j :| 0 <= j < |actions| && actions[j].ipClientId == device && actions[j].traefikProviderId == p;
        assert actions[j] in actions;
      }
    }
  }

  method ScheduleDevice(coordinator: Coordinator.SnapshotCoordinator, account: string, w: Snapshot.World,
          actionIds: seq<string>, device: string, cause: Option<Coordinator.ChangeId>)
    requires forall a :: a in actionIds <==> a in w.actions
    modifies coordinator
    ensures coordinator.stopped == old(coordinator.stopped)
    ensures forall p :: coordinator.Entry(p) ==
                        if p in Snapshot.ProvidersOfDevice(w, device) && !old(coordinator.stopped)
                        then Some(Coordinator.Triggered(old(coordinator.Entry(p)), account, cause))
                        else old(coordinator.Entry(p))
  {
    var ids := ProvidersOfDevice(w, actionIds, device);
    if |ids| > 0 {
      coordinator.Schedule(account, ids, cause);
    }
  }

  /** The latest report, from the end. */
  method FindReport(h: seq<IpClient.Event>) returns (report: Option<IpClient.Event>)
    ensures report == IpClient.LastReport(h)
    ensures report.None? <==> IpClient.NoReport(h)
    ensures report.Some? ==> exists i :: IpClient.IsLatestReport(h, i) && report.value == h[i]
  {
    IpClient.LastReportSays(h);
    hide IpClient.NoReport, IpClient.IsLatestReport;
    var i := |h|;
    assert h[..i] == h;
    while i > 0
      invariant 0 <= i <= |h| && IpClient.LastReport(h) == IpClient.LastReport(h[..i])
    {
      assert h[..i][..i - 1] == h[..i - 1];
      if h[i - 1].IpReportReceived? {
        return Some(h[i - 1]);
      }
      i := i - 1;
    }
    report := None;
  }

  /** The settlement after the debounce window: an actual change is recorded under the next number, and the
      providers that depend on the device are scheduled with it as their cause. `rivals` is what others append
      between the read and the append; if there is anything, the append is rejected and the settlement fails.
      `w` is what the reads after the append return. */
  method SettleDevice(store: Streams.PostgresEventStore<IpClient.Event>, coordinator: Coordinator.SnapshotCoordinator,
          account: string, device: string, id: Coordinator.ChangeId, rivals: seq<IpClient.Event>, w: Snapshot.World,
          actionIds: seq<string>)
    returns (changed: Option<IpClient.Event>)
    requires Streams.GapFree(store.table, device)
    requires forall a :: a in actionIds <==> a in w.actions
    modifies store, coordinator
    ensures changed == if rivals == [] then IpClient.Settle(old(Streams.History(store.table, device))) else None
    ensures if rivals == [] then IpClient.SettlesTo(old(Streams.History(store.table, device)), changed)
            else changed == None
    ensures Streams.GapFree(store.table, device)
    ensures Streams.History(store.table, device) ==
            old(Streams.History(store.table, device)) + rivals + (if changed.Some? then [changed.value] else [])
    ensures forall p :: coordinator.Entry(p) ==
                        if changed.Some? && p in Snapshot.ProvidersOfDevice(w, device) && !old(coordinator.stopped)
                        then Some(Coordinator.Triggered(old(coordinator.Entry(p)), account, Some(id)))
                        else old(coordinator.Entry(p))
  {
    IpClient.SettleSays(Streams.History(store.table, device));
    hide Streams.History, Streams.GapFree, IpClient.Settle, Snapshot.ProvidersOfDevice, Coordinator.Triggered;
    hide IpClient.SettlesTo;
    var h := store.ReadStream(device);
    changed := Decide(h);
    OthersAppend(store, device, rivals);
    if changed.None? {
      return;
    }
    var ok := AppendAfter(store, device, |h|, changed.value);
    if !ok {
      changed := None;
      return;
    }
    ScheduleDevice(coordinator, account, w, actionIds, device, Some(id));
  }

  method Decide(h: seq<IpClient.Event>) returns (changed: Option<IpClient.Event>)
    ensures changed == IpClient.Settle(h)
  {
    var state := IpClient.Replay(h);
    if state.status != IpClient.Enabled {
      return None;
    }
    var report := FindReport(h);
    if report.None? {
      return None;
    }
    var resolved4 := if report.value.reportedIPv4.Some? then report.value.reportedIPv4 else state.lastKnownIPv4;
    var resolved6 := if report.value.reportedIPv6.Some? then report.value.reportedIPv6 else state.lastKnownIPv6;
    if resolved4 == state.lastKnownIPv4 && resolved6 == state.lastKnownIPv6 {
      return None;
    }
    changed := Some(IpClient.IpChanged(state.lastKnownIPv4, resolved4, state.lastKnownIPv6, resolved6));
  }

  /** Ending what has ended is no error; `Raced` is the error of an append that others forestalled. */
  datatype Response = Accepted | AlreadyEnded | NotFound | Conflict | Raced

  /** Enabling, disabling and decommissioning a device; the change has no cause of its own. */
  method ChangeDevice(store: Streams.PostgresEventStore<IpClient.Event>, coordinator: Coordinator.SnapshotCoordinator,
          account: string, device: string, event: IpClient.Event, rivals: seq<IpClient.Event>, w: Snapshot.World,
          actionIds: seq<string>)
    returns (response: Response)
    requires event.SetEnabled? || event.SetDisabled? || event.SetDecommissioned?
    requires Streams.GapFree(store.table, device)
    requires forall a :: a in actionIds <==> a in w.actions
    modifies store, coordinator
    ensures var h := old(Streams.History(store.table, device));
            && (response == Accepted <==> IpClient.MayAppend(h, event) && rivals == [])
            && (response == Raced <==> IpClient.MayAppend(h, event) && rivals != [])
            && (response in {Accepted, Raced} <==>
                  IpClient.Replay(h).ipClientId.Some? && IpClient.Replay(h).status != IpClient.Decommissioned)
            && (response == NotFound <==> IpClient.Replay(h).ipClientId.None?)
            && (response == AlreadyEnded ==> event.SetDecommissioned?)
            && (response == Conflict ==> !event.SetDecommissioned?)
            && Streams.History(store.table, device) == h + rivals + (if response == Accepted then [event] else [])
    ensures Streams.GapFree(store.table, device)
    ensures forall p :: coordinator.Entry(p) ==
                        if response == Accepted && p in Snapshot.ProvidersOfDevice(w, device)
                           && !old(coordinator.stopped)
                        then Some(Coordinator.Triggered(old(coordinator.Entry(p)), account, None))
                        else old(coordinator.Entry(p))
  {
    hide Streams.History, Streams.GapFree, Snapshot.ProvidersOfDevice, Coordinator.Triggered, IpClient.Replay;
    var h := store.ReadStream(device);
    OthersAppend(store, device, rivals);
    var state := IpClient.Replay(h);
    if state.ipClientId.None? {
      return NotFound;
    }
    if state.status == IpClient.Decommissioned {
      return if event.SetDecommissioned? then AlreadyEnded else Conflict;
    }
    var ok := AppendAfter(store, device, |h|, event);
    if !ok {
      return Raced;
    }
    ScheduleDevice(coordinator, account, w, actionIds, device, None);
    response := Accepted;
  }

  /** Enabling, disabling and detaching an action. */
  method ChangeAction(store: Streams.PostgresEventStore<Action.Event>, coordinator: Coordinator.SnapshotCoordinator,
          account: string, action: string, event: Action.Event, rivals: seq<Action.Event>)
    returns (response: Response)
    requires event.SetEnabled? || event.SetDisabled? || event.SetDetached?
    requires Streams.GapFree(store.table, action)
    modifies store, coordinator
    ensures var h := old(Streams.History(store.table, action));
            && (response == Accepted <==> Action.MayAppend(h, event) && rivals == [])
            && (response == Raced <==> Action.MayAppend(h, event) && rivals != [])
            && (response in {Accepted, Raced} <==>
                  Action.Replay(h).actionId.Some? && Action.Replay(h).status != Action.Detached)
            && (response == NotFound <==> Action.Replay(h).actionId.None?)
            && (response == AlreadyEnded ==> event.SetDetached?) && (response == Conflict ==> !event.SetDetached?)
            && Streams.History(store.table, action) == h + rivals + (if response == Accepted then [event] else [])
    ensures Streams.GapFree(store.table, action)
    ensures var target := Snapshot.DeliveryTarget(Action.Replay(old(Streams.History(store.table, action))));
            forall p :: coordinator.Entry(p) ==
                        if response == Accepted && p in target && !old(coordinator.stopped)
                        then Some(Coordinator.Triggered(old(coordinator.Entry(p)), account, None))
                        else old(coordinator.Entry(p))
  {
    hide Streams.History, Streams.GapFree, Snapshot.DeliveryTarget, PointedAt, Coordinator.Triggered, Action.Replay;
    var h := store.ReadStream(action);
    OthersAppend(store, action, rivals);
    var state := Action.Replay(h);
    if state.actionId.None? {
      return NotFound;
    }
    if state.status == Action.Detached {
      return if event.SetDetached? then AlreadyEnded else Conflict;
    }
    var ok := AppendAfter(store, action, |h|, event);
    if !ok {
      return Raced;
    }
    ScheduleDelivery(coordinator, account, [Some(state)]);
    forall p ensures PointedAt([Some(state)], p) <==> p in Snapshot.DeliveryTarget(state) {
      OnePointsAt(state, p);
    }
    response := Accepted;
  }

  lemma {:induction false} OnePointsAt(state: Action.State, provider: string)
    ensures PointedAt([Some(state)], provider) <==> provider in Snapshot.DeliveryTarget(state)
  {
    assert [Some(state)][0] == Some(state);
  }
}

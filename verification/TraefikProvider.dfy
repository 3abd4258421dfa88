/** The stream of one Traefik provider: its events, its reducer, and how they are appended. */
module TraefikProvider {
  import opened Options
  import Coordinator
  import opened Snapshot
  import WireSize
  import opened Histories

  type ChangeId = Coordinator.ChangeId

  type Call = Coordinator.Call

  /** The correlation id of a version: the change that caused it, or an id made up for it alone. */
  datatype Correlation = Caused(change: ChangeId) | Generated(serial: nat)

  /** The content hash is represented by the content itself, which its JSON determines; the hash is taken to be free of
      collisions. Tokens and agent details are left out; times are numbers. */
  datatype Event =
    | Created(name: string)
    | Renamed(name: string)
    | Deleted
    | SnapshotPublished(content: Content, correlationId: Correlation, absorbed: seq<ChangeId>, publishedAt: int)
    | SnapshotPublishFailed(correlationId: Correlation, absorbed: seq<ChangeId>, failedAt: int)
    | AgentConnected(sessionId: nat)
    | AgentDisconnected(sessionId: nat)
    | SnapshotApplied(version: nat, appliedAt: int)
    | SnapshotApplyFailed(version: nat, reason: string, appliedAt: int)
    | TokenEvent

  datatype Published = Published(version: nat, content: Content, correlationId: Correlation, publishedAt: int)

  datatype Status = Missing | Active | Removed

  datatype State = State(
    status: Status,
    name: string,
    lastPublished: Option<Published>,
    lastPublishError: Option<Correlation>,
    lastApplied: Option<nat>,
    lastApplyError: Option<nat>)

  const INITIAL := State(Missing, "", None, None, None, None)

  /** `number` is the event's sequence number; a snapshot's version is nothing else. */
  function Reduce(s: State, e: Event, number: nat): State {
    match e
    case Created(name) => s.(status := Active, name := name)
    case Renamed(name) => s.(name := name)
    case Deleted => s.(status := Removed)
    case SnapshotPublished(content, correlation, _, at) =>
      s.(lastPublished := Some(Published(number, content, correlation, at)), lastPublishError := None)
    case SnapshotPublishFailed(correlation, _, _) => s.(lastPublishError := Some(correlation))
    case SnapshotApplied(version, _) => s.(lastApplied := Some(version), lastApplyError := None)
    case SnapshotApplyFailed(version, _, _) => s.(lastApplyError := Some(version))
    case _ => s
  }

  function Replay(h: seq<Event>): State {
    if h == [] then INITIAL else Reduce(Replay(h[..|h| - 1]), h[|h| - 1], |h|)
  }

  lemma {:induction false} ReplayAppend(h: seq<Event>, e: Event)
    ensures Replay(h + [e]) == Reduce(Replay(h), e, |h| + 1)
  {
    assert (h + [e])[..|h|] == h;
  }

  // ---- What the replay says, field by field

  function StatusSaid(number: nat, e: Event): Option<Status> {
    match e
    case Created(_) => Some(Active)
    case Deleted => Some(Removed)
    case _ => None
  }

  function NameSaid(number: nat, e: Event): Option<string> {
    if e.Created? || e.Renamed? then Some(e.name) else None
  }

  function PublishedSaid(number: nat, e: Event): Option<Option<Published>> {
    if e.SnapshotPublished? then Some(Some(Published(number, e.content, e.correlationId, e.publishedAt))) else None
  }

  function PublishErrorSaid(number: nat, e: Event): Option<Option<Correlation>> {
    match e
    case SnapshotPublished(_, _, _, _) => Some(None)
    case SnapshotPublishFailed(correlation, _, _) => Some(Some(correlation))
    case _ => None
  }

  function AppliedSaid(number: nat, e: Event): Option<Option<nat>> {
    if e.SnapshotApplied? then Some(Some(e.version)) else None
  }

  function ApplyErrorSaid(number: nat, e: Event): Option<Option<nat>> {
    match e
    case SnapshotApplied(_, _) => Some(None)
    case SnapshotApplyFailed(version, _, _) => Some(Some(version))
    case _ => None
  }

  ghost predicate Says(h: seq<Event>, s: State) {
    && LastSaid(h, StatusSaid, Missing, s.status)
    && LastSaid(h, NameSaid, "", s.name)
    && LastSaid(h, PublishedSaid, None, s.lastPublished)
    && LastSaid(h, PublishErrorSaid, None, s.lastPublishError)
    && LastSaid(h, AppliedSaid, None, s.lastApplied)
    && LastSaid(h, ApplyErrorSaid, None, s.lastApplyError)
  }

  /** A provider is there from its creation to its deletion, has the name it was last given, and its last
      publication is the last one recorded, with that event's number as its version; an error stands until the next
      success. */
  lemma {:induction false} ReplaySays(h: seq<Event>)
    ensures Says(h, Replay(h))
  {
    hide LastSaid;
    if h == [] {
      NothingSaid(StatusSaid, Missing);
      NothingSaid(NameSaid, "");
      NothingSaid(PublishedSaid, None);
      NothingSaid(PublishErrorSaid, None);
      NothingSaid(AppliedSaid, None);
      NothingSaid(ApplyErrorSaid, None);
    } else {
      var before, e := h[..|h| - 1], h[|h| - 1];
      var s := Replay(before);
      ReplaySays(before);
      SaysMore(before, e, StatusSaid, Missing, s.status);
      SaysMore(before, e, NameSaid, "", s.name);
      SaysMore(before, e, PublishedSaid, None, s.lastPublished);
      SaysMore(before, e, PublishErrorSaid, None, s.lastPublishError);
      SaysMore(before, e, AppliedSaid, None, s.lastApplied);
      SaysMore(before, e, ApplyErrorSaid, None, s.lastApplyError);
      assert h == before + [e];
    }
  }

  /** What is handed to agents. */
  datatype Payload = Payload(content: Content, version: nat, correlationId: Correlation, generatedAt: int)

  datatype PublishResult = PublishResult(snapshot: Payload, changed: bool)

  /** The changes a provider event names. */
  function Names(e: Event): seq<ChangeId> {
    match e
    case SnapshotPublished(_, correlation, absorbed, _) =>
      absorbed + (if correlation.Caused? then [correlation.change] else [])
    case SnapshotPublishFailed(correlation, absorbed, _) =>
      absorbed + (if correlation.Caused? then [correlation.change] else [])
    case _ => []
  }

  /** What a publish call decides from the state it loaded and the content it built. */
  datatype Decision = Unchanged(result: PublishResult) | TooLarge(event: Event) | Publish(event: Event)

  function Decide(last: Option<Published>, content: Content, fits: bool, call: Call, serial: nat, now: int): Decision {
    var correlation := if call.cause.Some? then Caused(call.cause.value) else Generated(serial);
    if last.Some? && last.value.content == content then
      Unchanged(PublishResult(Payload(content, last.value.version, last.value.correlationId, last.value.publishedAt),
                              false))
    else if !fits then TooLarge(SnapshotPublishFailed(correlation, call.absorbed, now))
    else Publish(SnapshotPublished(content, correlation, call.absorbed, now))
  }

  /** What the call returns once its event, if any, has got its number. */
  function Outcome(d: Decision, number: nat): Option<PublishResult> {
    match d
    case Unchanged(result) => Some(result)
    case TooLarge(_) => None
    case Publish(e) =>
      if e.SnapshotPublished? then Some(PublishResult(Payload(e.content, number, e.correlationId, e.publishedAt), true))
      else None
  }

  /** Events that other parts of the program append; only the publisher records publications. */
  predicate IsForeign(e: Event) {
    !e.Created? && !e.SnapshotPublished? && !e.SnapshotPublishFailed?
  }

  /** The limit is checked on the UTF-8 bytes of the content's JSON. What follows about publication holds for
      any such check. */
  function WithinLimit(limit: nat): Content -> bool {
    (content: Content) => WireSize.JsonSize(content) <= limit
  }

  class ProviderStore {
    var stream: seq<Event>

    constructor ()
      ensures stream == []
    {
      stream := [];
    }

    /** Load, append under the next number, and once more if somebody else took it. `rivals` are the events
        other processes append between the load and the append of each attempt. */
    method Append(event: Event, rivals: seq<seq<Event>>) returns (number: Option<nat>)
      requires |rivals| == 2
      modifies this
      ensures number.Some? <==> rivals[0] == [] || rivals[1] == []
      ensures number.None? ==> stream == old(stream) + rivals[0] + rivals[1]
      ensures number.Some? ==>
                && stream == old(stream) + (if rivals[0] == [] then [] else rivals[0]) + [event]
                && number.value == |stream|
    {
      var attempt := 0;
      while true
        invariant 0 <= attempt <= 1
        invariant attempt == 1 ==> rivals[0] != []
        invariant stream == old(stream) + (if attempt == 0 then [] else rivals[0])
        decreases 1 - attempt
      {
        var version := |stream|;
        stream := stream + rivals[attempt];
        if version == |stream| {
          stream := stream + [event];
          return Some(|stream|);
        }
        if attempt < 1 {
          attempt := attempt + 1;
          continue;
        }
        return None;
      }
    }
  }

  class SnapshotPublisher {
    const store: ProviderStore
    const limit: nat

    constructor (store: ProviderStore, limit: nat)
      ensures this.store == store && this.limit == limit
    {
      this.store, this.limit := store, limit;
    }

    /** One publish call inside its mutex. `world` is what its reads of the action and device streams
        returned, `foreign` what others appended to the provider stream between its load and its append, and
        `rivals` what other processes append in the attempts of that append, which fails if it loses both. */
    method Publish(world: World, actionIds: seq<string>, providerId: string, call: Call, foreign: seq<Event>,
            rivals: seq<seq<Event>>, serial: nat, now: int)
      returns (result: Option<PublishResult>, failed: bool)
      requires forall a :: a in actionIds <==> a in world.actions
      requires |rivals| == 2
      modifies store
      ensures Replay(old(store.stream)).status != Active ==>
                result == None && !failed && store.stream == old(store.stream) + foreign
      ensures Replay(old(store.stream)).status == Active ==>
                var loaded := Replay(old(store.stream));
                var content := Content(loaded.name, Groups(world, providerId));
                var decision := Decide(loaded.lastPublished, content, WithinLimit(limit)(content), call, serial, now);
                Landed(old(store.stream) + foreign, decision, rivals, store.stream, result, failed)
      ensures result.Some? ==>
                var base, s := old(store.stream) + foreign, result.value.snapshot;
                && !failed
                && (result.value.changed <==> Appended(base, store.stream, s))
                && (!result.value.changed ==>
                      store.stream == base && Replay(old(store.stream)).lastPublished ==
                        Some(Published(s.version, s.content, s.correlationId, s.generatedAt)))
                && s.content == Content(Replay(old(store.stream)).name, Groups(world, providerId))
      ensures result.None? && !failed && Replay(old(store.stream)).status == Active ==>
                && store.stream != [] && store.stream[|store.stream| - 1].SnapshotPublishFailed?
                && WireSize.JsonSize(Content(Replay(old(store.stream)).name, Groups(world, providerId))) > limit
    {
      hide Replay, Groups, Landed, Decide, Outcome, WithinLimit, WireSize.JsonSize;
      var loaded := Replay(store.stream);
      if loaded.status != Active {
        store.stream := store.stream + foreign;
        return None, false;
      }
      var content := BuildSnapshotContent(world, actionIds, providerId, loaded.name);
      store.stream := store.stream + foreign;
      result, failed := Record(loaded.lastPublished, content, call, rivals, serial, now);
    }

    /** Compare with the last version, check the size, append. */
    method Record(last: Option<Published>, content: Content, call: Call, rivals: seq<seq<Event>>, serial: nat, now: int)
      returns (result: Option<PublishResult>, failed: bool)
      requires |rivals| == 2
      modifies store
      ensures var decision := Decide(last, content, WithinLimit(limit)(content), call, serial, now);
              Landed(old(store.stream), decision, rivals, store.stream, result, failed)
      ensures var correlation := if call.cause.Some? then Caused(call.cause.value) else Generated(serial);
              var event := if WireSize.JsonSize(content) > limit
                           then SnapshotPublishFailed(correlation, call.absorbed, now)
                           else SnapshotPublished(content, correlation, call.absorbed, now);
              var base := old(store.stream);
              if last.Some? && last.value.content == content then
                && store.stream == base && !failed && result.Some? && !result.value.changed
                && last == Some(Published(result.value.snapshot.version, result.value.snapshot.content,
                                          result.value.snapshot.correlationId, result.value.snapshot.generatedAt))
              else if rivals[0] != [] && rivals[1] != [] then
                store.stream == base + rivals[0] + rivals[1] && failed && result.None?
              else
                && store.stream == base + rivals[0] + [event] && !failed && (result.Some? <==> event.SnapshotPublished?)
                && (result.Some? ==>
                      && result.value.changed
                      && result.value.snapshot == Payload(content, |store.stream|, correlation, now))
    {
      hide WireSize.JsonSize;
      result, failed := None, false;
      if last.Some? && last.value.content == content {
        result := Some(PublishResult(Payload(content, last.value.version, last.value.correlationId,
                                             last.value.publishedAt), false));
        return;
      }
      var correlationId := if call.cause.Some? then Caused(call.cause.value) else Generated(serial);
      if WireSize.JsonSize(content) > limit {
        var recorded := store.Append(SnapshotPublishFailed(correlationId, call.absorbed, now), rivals);
        failed := recorded.None?;
        return;
      }
      var number := store.Append(SnapshotPublished(content, correlationId, call.absorbed, now), rivals);
      if number.None? {
        failed := true;
        return;
      }
      result := Some(PublishResult(Payload(content, number.value, correlationId, now), true));
    }
  }

  /** The last event is new, and records exactly this snapshot under its number. */
  predicate Appended(before: seq<Event>, after: seq<Event>, s: Payload) {
    && |before| < |after| && s.version == |after|
    && var e := after[|after| - 1];
       && e.SnapshotPublished? && e.content == s.content
       && e.correlationId == s.correlationId && e.publishedAt == s.generatedAt
  }

  /** What a decision makes of the stream, and what is returned: nothing to append leaves it alone; an event is
      appended behind what the first attempt lost to, and its number is the version; losing both attempts fails. */
  predicate Landed(before: seq<Event>, d: Decision, rivals: seq<seq<Event>>, after: seq<Event>,
          result: Option<PublishResult>, failed: bool)
    requires |rivals| == 2
  {
    && failed == (!d.Unchanged? && rivals[0] != [] && rivals[1] != [])
    && after == (if d.Unchanged? then before else before + rivals[0] + (if failed then rivals[1] else [d.event]))
    && result == (if failed then None else Outcome(d, |after|))
  }
}

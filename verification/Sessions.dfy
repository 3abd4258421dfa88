/** Agent sessions: what one handler does between two awaits, and the registry of live sessions. */
module Sessions {
  import opened Options

  type SessionId(==, !new)

  type Provider(==, !new)

  const PROTOCOL_MIN_VERSION: int := 1
  const PROTOCOL_MAX_VERSION: int := 1

  datatype Message =
    | Hello(protocolVersion: int)
    | Report(ignoredStale: bool)
    | SyncRequest
    | Heartbeat
    | Bye
    | SnapshotMessage

  /** Where the message in progress is waiting: `Appended` is the moment between the commit of the connect
      event and the continuation that notes it. */
  datatype Phase = Idle | Appending | Appended | Loading | FirstSync | Reporting | Syncing

  datatype Ending = NeverConnected | ProviderGone | StoreFailed | Recorded

  /** How far the asynchronous rest of the close is; it first waits for the messages that had arrived by then. */
  datatype Closer = NotClosed | Awaiting(messages: nat) | LoadingProvider | AppendingEnd | Done(ending: Ending)

  datatype Session = Session(
    provider: Provider,
    helloSeen: bool,
    connectedRecorded: bool,
    closed: bool,
    disconnectRecorded: bool,
    heartbeat: bool,
    queue: seq<Message>,
    arrived: nat,
    handled: nat,
    phase: Phase,
    closer: Closer)

  function NewSession(provider: Provider): Session {
    Session(provider, false, false, false, false, false, [], 0, 0, Idle, NotClosed)
  }

  function Min(a: int, b: int): int { if a < b then a else b }

  predicate Supported(m: Message) {
    m.Hello? && Min(m.protocolVersion, PROTOCOL_MAX_VERSION) >= PROTOCOL_MIN_VERSION
  }

  /** The part of the close that runs at once, from wherever the channel is closed. */
  function Close(s: Session): Session {
    if s.closed then s else s.(closed := true, heartbeat := false, closer := Awaiting(s.arrived))
  }

  function Handled(s: Session): Session {
    s.(handled := s.handled + 1, phase := Idle)
  }

  /** The message opens the session. */
  predicate Opens(s: Session, m: Message) {
    !s.closed && !s.helloSeen && Supported(m)
  }

  predicate ClosesItself(s: Session, m: Message) {
    !s.closed && (if s.helloSeen then m.Bye? else !Supported(m))
  }

  /** The stretch from taking a message off the chain to the first await, or to its end. */
  function Begin(s: Session, m: Message): Session {
    if Opens(s, m) then s.(helloSeen := true, phase := Appending)
    else if ClosesItself(s, m) then Handled(Close(s))
    else if s.closed then Handled(s)
    else if m.Report? && !m.ignoredStale then s.(phase := Reporting)
    else if m.SyncRequest? then s.(phase := Syncing)
    else Handled(s)
  }

  /** The stretches after the awaits of a message. */
  function Continue(s: Session): Session {
    match s.phase
    case Appended => s.(connectedRecorded := true, phase := Loading)
    case Loading => s.(phase := FirstSync)
    case FirstSync => Handled(s.(heartbeat := true))
    case _ => Handled(s)
  }

  /** The stretch of the close after the chain has settled. */
  function AfterChain(s: Session): Session {
    if !s.connectedRecorded then s.(closer := Done(NeverConnected))
    else s.(disconnectRecorded := true, closer := LoadingProvider)
  }

  // ---- What a message does, message by message

  /** An open session that has seen its hello is closed by a bye, waits for an append after a report that is not
      stale and for a publish after a sync request; any other message is handled with nothing else changed. One that
      has not opens with a hello of version 1 or later and is closed by anything else; a closed one takes no notice. */
  ghost predicate Takes(s: Session, m: Message, s': Session) {
    var handled := s.(handled := s.handled + 1, phase := Idle);
    var closing := handled.(closed := true, heartbeat := false, closer := Awaiting(s.arrived));
    if s.closed then s' == handled
    else if !s.helloSeen then
      match m
      case Hello(version) => s' == if version >= 1 then s.(helloSeen := true, phase := Appending) else closing
      case _ => s' == closing
    else
      match m
      case Bye => s' == closing
      case Report(ignoredStale) => s' == if ignoredStale then handled else s.(phase := Reporting)
      case SyncRequest => s' == s.(phase := Syncing)
      case Hello(_) => s' == handled
      case Heartbeat => s' == handled
      case SnapshotMessage => s' == handled
  }

  lemma {:induction false} BeginSays(s: Session, m: Message)
    ensures Takes(s, m, Begin(s, m))
  {
  }

  /** What it does to the registry: opening takes the provider's place, closing gives up the session's own. */
  ghost predicate TakesPlace(s: Session, m: Message, id: SessionId, before: Registry, after: Registry) {
    if s.closed then after == before
    else if !s.helloSeen && m.Hello? && m.protocolVersion >= 1 then after == before[s.provider := id]
    else if !s.helloSeen || m.Bye? then
      after == if s.provider in before && before[s.provider] == id then before - {s.provider} else before
    else after == before
  }

  lemma {:induction false} PlaceSays(s: Session, m: Message, id: SessionId, before: Registry)
    ensures TakesPlace(s, m, id, before,
                       if Opens(s, m) then before[s.provider := id]
                       else if ClosesItself(s, m) then Unregister(before, s.provider, id) else before)
  {
  }

  /** After the commit of the connect the provider is loaded, then the first snapshot is sent, then the heartbeat
      starts; after a report or a sync the message is through. */
  lemma {:induction false} ContinueSays(s: Session)
    requires s.phase != Idle && s.phase != Appending
    ensures s.phase == Appended ==> Continue(s) == s.(connectedRecorded := true, phase := Loading)
    ensures s.phase == Loading ==> Continue(s) == s.(phase := FirstSync)
    ensures s.phase == FirstSync ==> Continue(s) == s.(heartbeat := true, handled := s.handled + 1, phase := Idle)
    ensures s.phase == Reporting || s.phase == Syncing ==> Continue(s) == s.(handled := s.handled + 1, phase := Idle)
  {
  }

  type Registry = map<Provider, SessionId>

  function Unregister(r: Registry, provider: Provider, id: SessionId): Registry {
    if provider in r && r[provider] == id then r - {provider} else r
  }

  // ---- The registry as an object

  datatype ActiveSession = ActiveSession(provider: Provider, account: string, id: SessionId, token: string)

  class SessionRegistry {
    var byProvider: map<Provider, ActiveSession>
    /** The messages sent, with the sessions they went to. */
    var sent: seq<(SessionId, Message)>
    /** The sessions whose channel was closed from here. */
    var ended: seq<SessionId>

    ghost predicate Valid()
      reads this
    {
      forall p :: p in byProvider ==> byProvider[p].provider == p
    }

    ghost function Ids(): Registry
      reads this
    {
      IdsIn(byProvider)
    }

    constructor ()
      ensures Valid() && byProvider == map[] && sent == [] && ended == []
    {
      byProvider, sent, ended := map[], [], [];
    }

    method Register(session: ActiveSession) returns (previous: Option<ActiveSession>)
      requires Valid()
      modifies `byProvider
      ensures Valid() && byProvider == old(byProvider)[session.provider := session]
      ensures Ids() == old(Ids())[session.provider := session.id]
      ensures previous == if session.provider in old(byProvider) then Some(old(byProvider)[session.provider]) else None
    {
      previous := if session.provider in byProvider then Some(byProvider[session.provider]) else None;
      byProvider := byProvider[session.provider := session];
    }

    /** Removes the entry only if it still belongs to this session. */
    method Remove(provider: Provider, id: SessionId) returns (removed: bool)
      requires Valid()
      modifies `byProvider
      ensures Valid() && Ids() == Unregister(old(Ids()), provider, id)
      ensures removed <==> provider in old(Ids()) && old(Ids())[provider] == id
      ensures byProvider == if removed then old(byProvider) - {provider} else old(byProvider)
    {
      if provider !in byProvider || byProvider[provider].id != id {
        return false;
      }
      byProvider := byProvider - {provider};
      removed := true;
    }

    method Push(provider: Provider, message: Message) returns (ok: bool)
      modifies `sent
      ensures ok <==> provider in byProvider
      ensures sent == old(sent) + if ok then [(byProvider[provider].id, message)] else []
    {
      if provider !in byProvider {
        return false;
      }
      sent := sent + [(byProvider[provider].id, message)];
      ok := true;
    }

    /** The providers whose session belongs to the account. */
    ghost function OfAccount(account: string): set<Provider>
      reads this
    {
      set p | p in byProvider && byProvider[p].account == account
    }

    /** Ends a live session: its handler's first stretch runs at once, and that removes its entry. */
    method End(provider: Provider)
      requires Valid() && provider in byProvider
      modifies `byProvider, `ended
      ensures Valid() && byProvider == old(byProvider) - {provider}
      ensures ended == old(ended) + [old(byProvider)[provider].id]
    {
      ended := ended + [byProvider[provider].id];
      var _ := Remove(provider, byProvider[provider].id);
    }

    method TerminateByToken(provider: Provider, token: string) returns (count: nat)
      requires Valid()
      modifies `byProvider, `ended
      ensures Valid()
      ensures count == if provider in old(byProvider) && old(byProvider)[provider].token == token then 1 else 0
      ensures byProvider == if count == 1 then old(byProvider) - {provider} else old(byProvider)
      ensures ended == old(ended) + if count == 1 then [old(byProvider)[provider].id] else []
    {
      if provider !in byProvider || byProvider[provider].token != token {
        return 0;
      }
      End(provider);
      count := 1;
    }

    /** Ends the sessions of an account, walking over a copy because each close removes its entry. */
    method TerminateByAccount(account: string) returns (count: nat, ghost order: seq<Provider>)
      requires Valid()
      modifies `byProvider, `ended
      ensures Valid() && byProvider == old(byProvider) - old(OfAccount(account))
      ensures Ids() == old(Ids()) - old(OfAccount(account))
      ensures ListedOnce(order, old(OfAccount(account))) && count == |order|
      ensures ended == old(ended) + EntriesOf(old(Ids()), order)
    {
      ghost var before, endedBefore := byProvider, ended;
      var rest := byProvider.Keys;
      count, order := 0, [];
      while rest != {}
        invariant Valid() && rest <= before.Keys && count == |order|
        invariant ListedOnce(order, EndedOf(before, account, rest))
        invariant byProvider == before - EndedOf(before, account, rest)
        invariant ended == endedBefore + EntriesOf(IdsIn(before), order)
        decreases rest
      {
        var p :| p in rest;
        if byProvider[p].account == account {
          OneMoreEnded(before, account, rest, order, p);
          assert EntriesOf(IdsIn(before), order + [p]) == EntriesOf(IdsIn(before), order) + [before[p].id];
          End(p);
          count, order := count + 1, order + [p];
        } else {
          assert EndedOf(before, account, rest - {p}) == EndedOf(before, account, rest);
        }
        rest := rest - {p};
      }
    }
  }

  ghost predicate ListedOnce(order: seq<Provider>, all: set<Provider>) {
    && (forall p :: p in order <==> p in all)
    && (forall i, j :: 0 <= i < j < |order| ==> order[i] != order[j])
  }

  function EntriesOf(registry: Registry, order: seq<Provider>): seq<SessionId>
    requires forall p :: p in order ==> p in registry
  {
    seq(|order|, i requires 0 <= i < |order| => registry[order[i]])
  }

  ghost function IdsIn(m: map<Provider, ActiveSession>): Registry {
    map p | p in m :: m[p].id
  }

  /** Which of the account's sessions have been ended when the rest is still to be looked at. */
  ghost function EndedOf(m: map<Provider, ActiveSession>, account: string, rest: set<Provider>): set<Provider> {
    set p | p in m && p !in rest && m[p].account == account
  }

  lemma {:induction false} OneMoreEnded(m: map<Provider, ActiveSession>, account: string, rest: set<Provider>,
          order: seq<Provider>, p: Provider)
    requires p in m && p in rest && m[p].account == account && ListedOnce(order, EndedOf(m, account, rest))
    ensures EndedOf(m, account, rest - {p}) == EndedOf(m, account, rest) + {p}
    ensures ListedOnce(order + [p], EndedOf(m, account, rest - {p}))
  {
  }

  // ---- One handler as an object

  class AgentSessionHandler {
    const self: ActiveSession
    const registry: SessionRegistry
    var helloSeen: bool
    var connectedRecorded: bool
    var closed: bool
    var finished: bool
    var disconnectRecorded: bool
    var heartbeat: bool
    /** The chain: what is yet to be processed, how many messages there were, and how many are through. */
    var queue: seq<Message>
    var arrived: nat
    var handled: nat
    var phase: Phase
    var closer: Closer

    ghost predicate Valid()
      reads this, registry
    {
      registry.Valid() && closed == finished && (disconnectRecorded ==> closed)
    }

    ghost function View(): Session
      reads this
    {
      Session(self.provider, helloSeen, connectedRecorded, closed, disconnectRecorded, heartbeat, queue, arrived,
              handled, phase, closer)
    }

    constructor (self: ActiveSession, registry: SessionRegistry)
      requires registry.Valid()
      ensures Valid() && this.self == self && this.registry == registry && View() == NewSession(self.provider)
      ensures !helloSeen && !connectedRecorded && !closed && !disconnectRecorded && !heartbeat && queue == []
    {
      this.self, this.registry := self, registry;
      helloSeen, connectedRecorded, closed, finished, disconnectRecorded, heartbeat :=
        false, false, false, false, false, false;
      queue, arrived, handled, phase, closer := [], 0, 0, Idle, NotClosed;
    }

    method Handle(message: Message)
      requires Valid()
      modifies this
      ensures Valid() && View() == old(View()).(queue := old(queue) + [message], arrived := old(arrived) + 1)
    {
      queue, arrived := queue + [message], arrived + 1;
    }

    /** Up to the first await. */
    method OnClosed()
      requires Valid()
      modifies this, registry`byProvider
      ensures Valid() && View() == Close(old(View()))
      ensures View() == if old(closed) then old(View())
                        else old(View()).(closed := true, heartbeat := false, closer := Awaiting(old(arrived)))
      ensures registry.Ids() == if old(closed) then old(registry.Ids())
                                else Unregister(old(registry.Ids()), self.provider, self.id)
    {
      if closed && finished {
        return;
      }
      closed, finished := true, true;
      heartbeat := false;
      var _ := registry.Remove(self.provider, self.id);
      closer := Awaiting(arrived);
    }

    /** Takes the next message off the chain and runs to its first await. The session it replaced, if any,
        is closed by the caller in the same stretch. */
    method Process() returns (replaced: Option<ActiveSession>)
      requires Valid() && phase == Idle && queue != []
      modifies this, registry`byProvider
      ensures Valid() && View() == Begin(old(View()).(queue := old(queue)[1..]), old(queue)[0])
      ensures Takes(old(View()).(queue := old(queue)[1..]), old(queue)[0], View())
      ensures TakesPlace(old(View()), old(queue)[0], self.id, old(registry.Ids()), registry.Ids())
      ensures registry.Ids() ==
              if Opens(old(View()), old(queue)[0]) then old(registry.Ids())[self.provider := self.id]
              else if ClosesItself(old(View()), old(queue)[0]) then
                Unregister(old(registry.Ids()), self.provider, self.id)
              else old(registry.Ids())
      ensures replaced.Some? <==> Opens(old(View()), old(queue)[0]) && self.provider in old(registry.Ids())
      ensures replaced.Some? ==> replaced.value.id == old(registry.Ids())[self.provider]
    {
      hide Takes, TakesPlace;
      BeginSays(View().(queue := queue[1..]), queue[0]);
      PlaceSays(View(), queue[0], self.id, registry.Ids());
      var message := queue[0];
      queue := queue[1..];
      replaced := None;
      if closed {
        handled := handled + 1;
        return;
      }
      if !helloSeen {
        replaced := OnFirstMessage(message);
        return;
      }
      match message {
        case Report(ignoredStale) =>
          if !ignoredStale {
            phase := Reporting;
            return;
          }
        case SyncRequest =>
          phase := Syncing;
          return;
        case Bye =>
          OnClosed();
        case _ =>
      }
      handled := handled + 1;
    }

    /** The first message has to be a hello with a version this server speaks. */
    method OnFirstMessage(message: Message) returns (replaced: Option<ActiveSession>)
      requires Valid() && phase == Idle && !closed && !helloSeen
      modifies this, registry`byProvider
      ensures Valid() && View() == Begin(old(View()), message)
      ensures registry.Ids() == if Opens(old(View()), message) then old(registry.Ids())[self.provider := self.id]
                                else Unregister(old(registry.Ids()), self.provider, self.id)
      ensures replaced.Some? <==> Opens(old(View()), message) && self.provider in old(registry.Ids())
      ensures replaced.Some? ==> replaced.value.id == old(registry.Ids())[self.provider]
    {
      replaced := None;
      if !message.Hello? || Min(message.protocolVersion, PROTOCOL_MAX_VERSION) < PROTOCOL_MIN_VERSION {
        OnClosed();
        handled := handled + 1;
        return;
      }
      helloSeen := true;
      replaced := registry.Register(self);
      phase := Appending;
    }

    /** Resumes after an await of the message in progress. */
    method Resume()
      requires Valid() && phase != Idle && phase != Appending
      modifies this
      ensures Valid() && View() == Continue(old(View()))
      ensures View() == if old(phase) == Appended then old(View()).(connectedRecorded := true, phase := Loading)
                        else if old(phase) == Loading then old(View()).(phase := FirstSync)
                        else old(View()).(heartbeat := old(heartbeat) || old(phase) == FirstSync,
                                          handled := old(handled) + 1, phase := Idle)
    {
      if phase == Appended {
        connectedRecorded := true;
        phase := Loading;
      } else if phase == Loading {
        phase := FirstSync;
      } else {
        heartbeat := heartbeat || phase == FirstSync;
        handled, phase := handled + 1, Idle;
      }
    }

    /** Resumes the close once the chain has settled. */
    method ChainSettled()
      requires Valid() && closer.Awaiting? && closed && !disconnectRecorded
      modifies this
      ensures Valid() && View() == AfterChain(old(View()))
      ensures View() == if old(connectedRecorded)
                        then old(View()).(disconnectRecorded := true, closer := LoadingProvider)
                        else old(View()).(closer := Done(NeverConnected))
    {
      if !connectedRecorded || disconnectRecorded {
        closer := Done(NeverConnected);
        return;
      }
      disconnectRecorded := true;
      closer := LoadingProvider;
    }
  }
}

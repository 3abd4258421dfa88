/** Any number of sessions, with messages, store commits and closes interleaved at every await. */
module SessionRuns {
  import opened Options
  import opened Sessions

  /** What a session leaves in its provider's stream. */
  datatype Record = ConnectRecord(id: SessionId) | DisconnectRecord(id: SessionId)

  datatype World = World(sessions: map<SessionId, Session>, registry: Registry, log: seq<Record>)

  datatype Step =
    | Open(id: SessionId, provider: Provider)
    | Arrive(id: SessionId, message: Message)
    /** The next message of a session is taken off its chain. */
    | Take(id: SessionId)
    /** The store commits the connect event. */
    | Commit(id: SessionId)
    | Resume(id: SessionId)
    /** What is awaited fails, and the handler closes the channel. */
    | Fail(id: SessionId)
    /** The transport goes, a token is revoked, a heartbeat is missed. */
    | CloseSession(id: SessionId)
    | ChainSettled(id: SessionId)
    | ProviderLoaded(id: SessionId, present: bool)
    | EndAppended(id: SessionId, ok: bool)

  predicate Enabled(w: World, step: Step) {
    if step.Open? then step.id !in w.sessions
    else
      && step.id in w.sessions
      && var s := w.sessions[step.id];
         match step
         case Take(_) => s.phase == Idle && s.queue != []
         case Commit(_) => s.phase == Appending
         case Resume(_) => s.phase != Idle && s.phase != Appending
         case Fail(_) => s.phase != Idle && s.phase != Appended
         case ChainSettled(_) => s.closer.Awaiting? && s.handled >= s.closer.messages
         case ProviderLoaded(_, _) => s.closer == LoadingProvider
         case EndAppended(_, _) => s.closer == AppendingEnd
         case _ => true
  }

  function With(w: World, id: SessionId, s: Session): World {
    w.(sessions := w.sessions[id := s])
  }

  /** The close of a session as one stretch: the handler's and the registry's part. */
  function CloseIn(w: World, id: SessionId): World
    requires id in w.sessions
  {
    var s := w.sessions[id];
    if s.closed then w else With(w, id, Close(s)).(registry := Unregister(w.registry, s.provider, id))
  }

  /** A new session takes its provider's place in the registry, and the one it replaces is closed. */
  function Register(w: World, id: SessionId, provider: Provider): World {
    var replaced := if provider in w.registry then Some(w.registry[provider]) else None;
    var registered := w.(registry := w.registry[provider := id]);
    if replaced.Some? && replaced.value in registered.sessions then CloseIn(registered, replaced.value) else registered
  }

  /** What a step makes of the session it is about. */
  function Own(s: Session, step: Step): Session
    requires step.Take? ==> s.queue != []
  {
    match step
    case Open(_, _) => s
    case Arrive(_, m) => s.(queue := s.queue + [m], arrived := s.arrived + 1)
    case Take(_) => Begin(s.(queue := s.queue[1..]), s.queue[0])
    case Commit(_) => s.(phase := Appended)
    case Resume(_) => Continue(s)
    case Fail(_) => Handled(Close(s))
    case CloseSession(_) => Close(s)
    case ChainSettled(_) => AfterChain(s)
    case ProviderLoaded(_, present) => s.(closer := if present then AppendingEnd else Done(ProviderGone))
    case EndAppended(_, ok) => s.(closer := Done(if ok then Recorded else StoreFailed))
  }

  function TakeMessage(w: World, id: SessionId): World
    requires id in w.sessions && w.sessions[id].queue != []
  {
    var s := w.sessions[id].(queue := w.sessions[id].queue[1..]);
    var m := w.sessions[id].queue[0];
    var after := With(w, id, Begin(s, m));
    if Opens(s, m) then Register(after, id, s.provider)
    else if ClosesItself(s, m) then after.(registry := Unregister(w.registry, s.provider, id))
    else after
  }

  function Next(w: World, step: Step): World
    requires Enabled(w, step)
  {
    if step.Open? then With(w, step.id, NewSession(step.provider))
    else if step.Take? then TakeMessage(w, step.id)
    else
      var s := w.sessions[step.id];
      var after := With(w, step.id, Own(s, step));
      if (step.CloseSession? || step.Fail?) && !s.closed then
        after.(registry := Unregister(w.registry, s.provider, step.id))
      else if step.Commit? then after.(log := w.log + [ConnectRecord(step.id)])
      else if step.EndAppended? && step.ok then after.(log := w.log + [DisconnectRecord(step.id)])
      else after
  }

  /** Session by session: the one a step is about changes as it says, and the others at most get closed. */
  lemma {:induction false} Moves(w: World, step: Step, id: SessionId)
    requires Enabled(w, step) && id in w.sessions
    ensures id in Next(w, step).sessions
    ensures var s, s' := w.sessions[id], Next(w, step).sessions[id];
            if id == step.id then s' == Own(s, step) || s' == Close(Own(s, step)) else s' == s || s' == Close(s)
  {
  }

  ghost predicate IsRun(run: seq<World>, steps: seq<Step>) {
    && |run| == |steps| + 1 && run[0] == World(map[], map[], [])
    && (forall i :: 0 <= i < |steps| ==> Enabled(run[i], steps[i]) && run[i + 1] == Next(run[i], steps[i]))
  }

  // ---- The registry

  predicate Live(s: Session) {
    s.helloSeen && !s.closed
  }

  predicate LiveAt(w: World, id: SessionId) {
    id in w.sessions && Live(w.sessions[id])
  }

  /** The registry holds exactly the live sessions, each under its provider. */
  ghost predicate RegistryInv(w: World) {
    && (forall p :: p in w.registry ==>
          w.registry[p] in w.sessions && w.sessions[w.registry[p]].provider == p && Live(w.sessions[w.registry[p]]))
    && (forall id :: id in w.sessions && Live(w.sessions[id]) ==>
          w.sessions[id].provider in w.registry && w.registry[w.sessions[id].provider] == id)
  }

  lemma {:induction false} CloseKeepsRegistry(w: World, id: SessionId)
    requires RegistryInv(w) && id in w.sessions
    ensures RegistryInv(CloseIn(w, id))
  {
  }

  lemma {:induction false} QuietKeepsRegistry(w: World, id: SessionId, s: Session)
    requires RegistryInv(w) && id in w.sessions
    requires s.provider == w.sessions[id].provider && (Live(s) <==> Live(w.sessions[id]))
    ensures RegistryInv(With(w, id, s))
  {
  }

  lemma {:induction false} RegisterKeepsRegistry(w: World, id: SessionId, s: Session)
    requires RegistryInv(w) && id in w.sessions && !w.sessions[id].helloSeen
    requires s.provider == w.sessions[id].provider && Live(s)
    ensures RegistryInv(Register(With(w, id, s), id, s.provider))
  {
    var p := s.provider;
    if p in w.registry {
      assert w.registry[p] != id;
    }
  }

  lemma {:induction false} TakeKeepsRegistry(w: World, id: SessionId)
    requires RegistryInv(w) && id in w.sessions && w.sessions[id].queue != []
    ensures RegistryInv(TakeMessage(w, id))
  {
    var s := w.sessions[id].(queue := w.sessions[id].queue[1..]);
    var m := w.sessions[id].queue[0];
    if Opens(s, m) {
      RegisterKeepsRegistry(w, id, Begin(s, m));
    } else if ClosesItself(s, m) {
      CloseKeepsRegistry(w, id);
      var closed := CloseIn(w, id);
      QuietKeepsRegistry(closed, id, Begin(s, m));
      assert closed.sessions[id := Begin(s, m)] == w.sessions[id := Begin(s, m)];
    } else {
      QuietKeepsRegistry(w, id, Begin(s, m));
    }
  }

  lemma {:induction false} StepKeepsRegistry(w: World, step: Step)
    requires RegistryInv(w) && Enabled(w, step)
    ensures RegistryInv(Next(w, step))
  {
    if step.Take? {
      TakeKeepsRegistry(w, step.id);
    } else if step.CloseSession? || step.Fail? {
      ClosingKeepsRegistry(w, step);
    } else if !step.Open? {
      StaysLive(w.sessions[step.id], step);
      QuietKeepsRegistry(w, step.id, Own(w.sessions[step.id], step));
      hide Own, RegistryInv, Live;
    }
  }

  lemma {:induction false} ClosingKeepsRegistry(w: World, step: Step)
    requires RegistryInv(w) && Enabled(w, step) && (step.CloseSession? || step.Fail?)
    ensures RegistryInv(Next(w, step))
  {
    CloseKeepsRegistry(w, step.id);
    var closed := CloseIn(w, step.id);
    QuietKeepsRegistry(closed, step.id, Own(w.sessions[step.id], step));
    assert closed.sessions[step.id := Own(w.sessions[step.id], step)] ==
             w.sessions[step.id := Own(w.sessions[step.id], step)];
    hide RegistryInv;
  }

  lemma {:induction false} StaysLive(s: Session, step: Step)
    requires !step.Take? && !step.CloseSession? && !step.Fail?
    ensures Own(s, step).provider == s.provider && (Live(Own(s, step)) <==> Live(s))
  {
  }

  /** In every reachable state a provider's entry is its one live session: never a closed one, never two. */
  lemma {:induction false} RegistryHoldsLiveSessions(run: seq<World>, steps: seq<Step>, k: nat)
    requires IsRun(run, steps) && k <= |steps|
    ensures RegistryInv(run[k])
    ensures var w := run[k];
            forall a, b :: LiveAt(w, a) && LiveAt(w, b) && w.sessions[a].provider == w.sessions[b].provider ==> a == b
    decreases k
  {
    if k > 0 {
      RegistryHoldsLiveSessions(run, steps, k - 1);
      StepKeepsRegistry(run[k - 1], steps[k - 1]);
    }
  }

  /** A registered session leaves the registry only in the stretch in which it is itself closed: no close of
      an older session ever evicts it. */
  lemma {:induction false} OnlyItsOwnCloseEvicts(run: seq<World>, steps: seq<Step>, k: nat, p: Provider)
    requires IsRun(run, steps) && k < |steps| && p in run[k].registry
    requires !(p in run[k + 1].registry && run[k + 1].registry[p] == run[k].registry[p])
    ensures var id := run[k].registry[p];
            id in run[k].sessions && !run[k].sessions[id].closed && id in run[k + 1].sessions
            && run[k + 1].sessions[id].closed
  {
    RegistryHoldsLiveSessions(run, steps, k);
    RegistryHoldsLiveSessions(run, steps, k + 1);
    SessionsStay(run[k], steps[k], run[k].registry[p]);
  }

  lemma {:induction false} SessionsStay(w: World, step: Step, id: SessionId)
    requires Enabled(w, step) && id in w.sessions
    ensures id in Next(w, step).sessions
    ensures var s, s' := w.sessions[id], Next(w, step).sessions[id];
            s'.provider == s.provider && (s.helloSeen ==> s'.helloSeen) && (s.closed ==> s'.closed)
  {
    Moves(w, step, id);
    if id == step.id {
      OwnGrows(w.sessions[id], step);
    }
  }

  lemma {:induction false} OwnGrows(s: Session, step: Step)
    requires step.Take? ==> s.queue != []
    ensures var s' := Own(s, step);
            s'.provider == s.provider && (s.helloSeen ==> s'.helloSeen) && (s.closed ==> s'.closed)
  {
    if step.Take? {
      BeginGrows(s.(queue := s.queue[1..]), s.queue[0]);
    }
    hide Begin;
  }

  lemma {:induction false} BeginGrows(s: Session, m: Message)
    ensures var s' := Begin(s, m);
            s'.provider == s.provider && (s.helloSeen ==> s'.helloSeen) && (s.closed ==> s'.closed)
  {
  }

  // ---- The records

  function Count(log: seq<Record>, r: Record): nat {
    multiset(log)[r]
  }

  lemma {:induction false} CountAppend(log: seq<Record>, r: Record, other: Record)
    ensures Count(log + [r], other) == Count(log, other) + (if other == r then 1 else 0)
  {
  }

  /** How the flags of one session go together. */
  predicate FlagsInv(s: Session) {
    && (s.phase in {Appending, Appended} ==> s.helloSeen && !s.connectedRecorded)
    && (s.phase in {Loading, FirstSync, Reporting, Syncing} ==> s.helloSeen)
    && (s.phase in {Loading, FirstSync} ==> s.connectedRecorded)
    && (s.connectedRecorded ==> s.helloSeen)
    && s.handled + |s.queue| + (if s.phase == Idle then 0 else 1) == s.arrived
    && (s.closed <==> !s.closer.NotClosed?)
    && (s.disconnectRecorded <==>
          s.closer in {LoadingProvider, AppendingEnd} || (s.closer.Done? && s.closer.ending != NeverConnected))
    && (s.disconnectRecorded ==> s.connectedRecorded)
    && (s.closer == Done(NeverConnected) ==> !s.connectedRecorded)
    && (s.closer.Awaiting? && s.phase != Idle ==> s.handled < s.closer.messages)
    && (s.closed && !s.closer.Awaiting? ==> s.phase == Idle)
  }

  predicate RecordsInv(id: SessionId, s: Session, log: seq<Record>) {
    && Count(log, ConnectRecord(id)) == (if s.connectedRecorded || s.phase == Appended then 1 else 0)
    && Count(log, DisconnectRecord(id)) == (if s.closer == Done(Recorded) then 1 else 0)
  }

  ghost predicate LogInv(w: World) {
    && (forall id :: id in w.sessions ==> FlagsInv(w.sessions[id]) && RecordsInv(id, w.sessions[id], w.log))
    && (forall r :: r in w.log ==> r.id in w.sessions)
    && (forall j :: 0 <= j < |w.log| && w.log[j].DisconnectRecord? ==> ConnectRecord(w.log[j].id) in w.log[..j])
  }

  lemma {:induction false} BeginKeepsFlags(s: Session)
    requires FlagsInv(s) && s.phase == Idle && s.queue != []
    ensures var s' := Begin(s.(queue := s.queue[1..]), s.queue[0]);
            && FlagsInv(s') && s'.connectedRecorded == s.connectedRecorded && s'.phase != Appended
            && (s'.closer == s.closer || (s.closer.NotClosed? && s'.closer.Awaiting?))
  {
  }

  lemma {:induction false} ContinueKeepsFlags(s: Session)
    requires FlagsInv(s) && s.phase != Idle && s.phase != Appending
    ensures FlagsInv(Continue(s))
    ensures Continue(s).closer == s.closer
    ensures (Continue(s).connectedRecorded || Continue(s).phase == Appended) <==>
              (s.connectedRecorded || s.phase == Appended)
  {
  }

  lemma {:induction false} CloseKeepsFlags(s: Session)
    requires FlagsInv(s)
    ensures FlagsInv(Close(s))
    ensures Close(s).connectedRecorded == s.connectedRecorded && Close(s).phase == s.phase
    ensures Close(s).closer == s.closer || (s.closer.NotClosed? && Close(s).closer.Awaiting?)
    ensures s.phase != Idle ==> FlagsInv(Handled(Close(s)))
  {
  }

  /** A change of sessions that records nothing. */
  ghost predicate Silent(w: World, w': World) {
    && w'.log == w.log && w'.sessions.Keys == w.sessions.Keys
    && (forall id :: id in w.sessions ==> FlagsInv(w'.sessions[id]) && Alike(w.sessions[id], w'.sessions[id]))
  }

  predicate Alike(s: Session, s': Session) {
    && ((s.connectedRecorded || s.phase == Appended) <==> (s'.connectedRecorded || s'.phase == Appended))
    && (s.closer == Done(Recorded) <==> s'.closer == Done(Recorded))
  }

  lemma {:induction false} SilentKeepsLog(w: World, w': World)
    requires LogInv(w) && Silent(w, w')
    ensures LogInv(w')
  {
  }

  predicate Records(step: Step) {
    step.Commit? || (step.EndAppended? && step.ok)
  }

  lemma {:induction false} TakeKeepsFlags(s: Session, step: Step)
    requires FlagsInv(s) && step.Take? && s.phase == Idle && s.queue != []
    ensures FlagsInv(Own(s, step)) && Alike(s, Own(s, step))
  {
    BeginKeepsFlags(s);
  }

  lemma {:induction false} OwnKeepsFlags(w: World, step: Step)
    requires LogInv(w) && Enabled(w, step) && !step.Open? && !Records(step)
    ensures var s' := Own(w.sessions[step.id], step); FlagsInv(s') && Alike(w.sessions[step.id], s')
  {
    var s := w.sessions[step.id];
    assert FlagsInv(s);
    if step.Take? {
      TakeKeepsFlags(s, step);
    } else if step.Resume? {
      ContinueKeepsFlags(s);
    } else if step.Fail? || step.CloseSession? {
      CloseKeepsFlags(s);
    }
  }

  lemma {:induction false} QuietStep(w: World, step: Step)
    requires Enabled(w, step) && !step.Open? && !Records(step)
    ensures Next(w, step).log == w.log && Next(w, step).sessions.Keys == w.sessions.Keys
  {
  }

  lemma {:induction false} MostStepsAreSilent(w: World, step: Step)
    requires LogInv(w) && Enabled(w, step) && !step.Open? && !Records(step)
    ensures Silent(w, Next(w, step))
  {
    QuietStep(w, step);
    OwnKeepsFlags(w, step);
    forall id | id in w.sessions
      ensures FlagsInv(Next(w, step).sessions[id]) && Alike(w.sessions[id], Next(w, step).sessions[id]) {
      Moves(w, step, id);
      CloseKeepsFlags(w.sessions[id]);
      if id == step.id {
        CloseKeepsFlags(Own(w.sessions[id], step));
      }
    }
  }

  lemma {:induction false} RecordKeepsLog(w: World, id: SessionId, s: Session, r: Record)
    requires LogInv(w) && id in w.sessions && r.id == id && FlagsInv(s)
    requires RecordsInv(id, s, w.log + [r])
    requires r.DisconnectRecord? ==> ConnectRecord(id) in w.log
    ensures LogInv(With(w, id, s).(log := w.log + [r]))
  {
    hide FlagsInv, Count;
    var log := w.log + [r];
    forall other | other in w.sessions && other != id ensures RecordsInv(other, w.sessions[other], log) {
      CountAppend(w.log, r, ConnectRecord(other));
      CountAppend(w.log, r, DisconnectRecord(other));
    }
    forall j | 0 <= j < |log| && log[j].DisconnectRecord? ensures ConnectRecord(log[j].id) in log[..j] {
      if j < |w.log| {
        assert log[..j] == w.log[..j];
      } else {
        assert log[..j] == w.log;
      }
    }
  }

  lemma {:induction false} RecordingKeepsFlags(s: Session, step: Step)
    requires FlagsInv(s)
    requires (step.Commit? && s.phase == Appending) || (step.EndAppended? && s.closer == AppendingEnd && step.ok)
    ensures FlagsInv(Own(s, step)) && Own(s, step).connectedRecorded == s.connectedRecorded
    ensures step.Commit? ==>
              && !s.connectedRecorded && s.closer != Done(Recorded)
              && Own(s, step).phase == Appended && Own(s, step).closer == s.closer
    ensures step.EndAppended? ==> s.connectedRecorded && Own(s, step).closer == Done(Recorded) && s.phase == Idle
  {
  }

  function RecordOf(step: Step): Record {
    if step.Commit? then ConnectRecord(step.id) else DisconnectRecord(step.id)
  }

  lemma {:induction false} RecordingStep(w: World, step: Step)
    requires Enabled(w, step) && Records(step)
    ensures Next(w, step) == With(w, step.id, Own(w.sessions[step.id], step)).(log := w.log + [RecordOf(step)])
  {
  }

  lemma {:induction false} RecordStep(w: World, step: Step)
    requires LogInv(w) && Enabled(w, step) && Records(step)
    ensures LogInv(Next(w, step))
  {
    var s := w.sessions[step.id];
    assert FlagsInv(s) && RecordsInv(step.id, s, w.log);
    RecordingKeepsFlags(s, step);
    RecordingStep(w, step);
    hide FlagsInv, LogInv, Next, Own;
    var r := RecordOf(step);
    CountAppend(w.log, r, ConnectRecord(step.id));
    CountAppend(w.log, r, DisconnectRecord(step.id));
    RecordKeepsLog(w, step.id, Own(s, step), r);
  }

  lemma {:induction false} OpenKeepsLog(w: World, id: SessionId, provider: Provider)
    requires LogInv(w) && id !in w.sessions
    ensures LogInv(Next(w, Open(id, provider)))
  {
    assert ConnectRecord(id) !in w.log && DisconnectRecord(id) !in w.log;
  }

  lemma {:induction false} StepKeepsLog(w: World, step: Step)
    requires LogInv(w) && Enabled(w, step)
    ensures LogInv(Next(w, step))
  {
    if step.Open? {
      OpenKeepsLog(w, step.id, step.provider);
    } else if Records(step) {
      RecordStep(w, step);
    } else {
      MostStepsAreSilent(w, step);
      SilentKeepsLog(w, Next(w, step));
    }
  }

  lemma {:induction false} LogHolds(run: seq<World>, steps: seq<Step>, k: nat)
    requires IsRun(run, steps) && k <= |steps|
    ensures LogInv(run[k])
    decreases k
  {
    if k > 0 {
      LogHolds(run, steps, k - 1);
      StepKeepsLog(run[k - 1], steps[k - 1]);
    }
  }

  /** Each session records at most one connect and at most one disconnect, and a disconnect only after its
      connect. */
  lemma {:induction false} ConnectThenDisconnectOnce(run: seq<World>, steps: seq<Step>, id: SessionId)
    requires IsRun(run, steps)
    ensures var log := run[|steps|].log;
            && Count(log, ConnectRecord(id)) <= 1 && Count(log, DisconnectRecord(id)) <= 1
            && (forall j :: 0 <= j < |log| && log[j] == DisconnectRecord(id) ==> ConnectRecord(id) in log[..j])
  {
    LogHolds(run, steps, |steps|);
    var w := run[|steps|];
    if id !in w.sessions {
      assert ConnectRecord(id) !in w.log && DisconnectRecord(id) !in w.log;
    }
  }

  /** Wherever the close cut in, once it has completed a session that recorded its connect has its disconnect
      recorded, unless the store failed or the provider was gone; and one that did not has neither. */
  lemma {:induction false} CompletedCloseIsRecorded(run: seq<World>, steps: seq<Step>, id: SessionId)
    requires IsRun(run, steps)
    requires id in run[|steps|].sessions && run[|steps|].sessions[id].closer.Done?
    ensures var w := run[|steps|];
            var ending := w.sessions[id].closer.ending;
            && (ConnectRecord(id) in w.log <==> ending != NeverConnected)
            && (DisconnectRecord(id) in w.log <==> ending == Recorded)
  {
    LogHolds(run, steps, |steps|);
  }

  /** And that stays so: nothing is recorded for the session afterwards. */
  lemma {:induction false} CompletedCloseIsFinal(run: seq<World>, steps: seq<Step>, id: SessionId, i: nat, j: nat)
    requires IsRun(run, steps) && i <= j <= |steps|
    requires id in run[i].sessions && run[i].sessions[id].closer.Done?
    ensures id in run[j].sessions && run[j].sessions[id].closer == run[i].sessions[id].closer
    ensures run[j].sessions[id].connectedRecorded == run[i].sessions[id].connectedRecorded
    ensures Count(run[j].log, ConnectRecord(id)) == Count(run[i].log, ConnectRecord(id))
    ensures Count(run[j].log, DisconnectRecord(id)) == Count(run[i].log, DisconnectRecord(id))
    decreases j
  {
    hide LogInv, Count, Next, Enabled;
    DoneCounts(run, steps, id, i);
    if i < j {
      CompletedCloseIsFinal(run, steps, id, i, j - 1);
      LogHolds(run, steps, j - 1);
      DoneStays(run[j - 1], steps[j - 1], id);
      DoneCounts(run, steps, id, j);
    }
  }

  lemma {:induction false} DoneCounts(run: seq<World>, steps: seq<Step>, id: SessionId, k: nat)
    requires IsRun(run, steps) && k <= |steps| && id in run[k].sessions && run[k].sessions[id].closer.Done?
    ensures Count(run[k].log, ConnectRecord(id)) == (if run[k].sessions[id].connectedRecorded then 1 else 0)
    ensures Count(run[k].log, DisconnectRecord(id)) == (if run[k].sessions[id].closer == Done(Recorded) then 1 else 0)
  {
    LogHolds(run, steps, k);
    assert FlagsInv(run[k].sessions[id]) && RecordsInv(id, run[k].sessions[id], run[k].log);
  }

  lemma {:induction false} OwnDoneStays(s: Session, step: Step)
    requires FlagsInv(s) && s.closer.Done?
    requires step.Take? ==> s.phase == Idle && s.queue != []
    requires step.Resume? || step.Commit? || step.Fail? ==> s.phase != Idle
    requires !step.ChainSettled? && !step.ProviderLoaded? && !step.EndAppended?
    ensures Own(s, step).closer == s.closer && Own(s, step).connectedRecorded == s.connectedRecorded
  {
  }

  lemma {:induction false} DoneStays(w: World, step: Step, id: SessionId)
    requires LogInv(w) && Enabled(w, step) && id in w.sessions && w.sessions[id].closer.Done?
    ensures id in Next(w, step).sessions && Next(w, step).sessions[id].closer == w.sessions[id].closer
    ensures Next(w, step).sessions[id].connectedRecorded == w.sessions[id].connectedRecorded
  {
    assert FlagsInv(w.sessions[id]);
    Moves(w, step, id);
    if id == step.id {
      OwnDoneStays(w.sessions[id], step);
      OwnGrows(w.sessions[id], step);
    }
  }

  // ---- The heartbeat timer

  predicate Leaks(s: Session) {
    s.closed && s.heartbeat
  }

  lemma {:induction false} OwnTimer(s: Session, step: Step)
    requires step.Take? ==> s.queue != []
    requires step.Resume? ==> s.phase != Idle && s.phase != Appending
    requires !Leaks(s)
    ensures Leaks(Own(s, step)) <==> step.Resume? && s.phase == FirstSync && s.closed
    ensures Leaks(Own(s, step)) ==> Close(Own(s, step)) == Own(s, step)
    ensures !Leaks(Own(s, step)) ==> !Leaks(Close(Own(s, step)))
  {
  }

  lemma {:induction false} TimerStep(w: World, step: Step, id: SessionId)
    requires Enabled(w, step) && id in w.sessions && !Leaks(w.sessions[id])
    ensures id in Next(w, step).sessions
    ensures Leaks(Next(w, step).sessions[id]) <==>
              step == Resume(id) && w.sessions[id].phase == FirstSync && w.sessions[id].closed
  {
    Moves(w, step, id);
    if id == step.id {
      OwnTimer(w.sessions[id], step);
    }
  }

  /** A timer that outlived its session's close is never stopped. */
  lemma {:induction false} LeakStays(w: World, step: Step, id: SessionId)
    requires Enabled(w, step) && id in w.sessions && Leaks(w.sessions[id])
    ensures id in Next(w, step).sessions && Leaks(Next(w, step).sessions[id])
  {
    Moves(w, step, id);
    if id == step.id {
      OwnLeakStays(w.sessions[id], step);
    }
  }

  lemma {:induction false} OwnLeakStays(s: Session, step: Step)
    requires step.Take? ==> s.queue != []
    requires Leaks(s)
    ensures Leaks(Own(s, step)) && Close(Own(s, step)) == Own(s, step)
  {
  }

  /** The hello of a session that was closed meanwhile comes to its end. */
  predicate ResumesClosed(w: World, step: Step, id: SessionId) {
    step == Resume(id) && id in w.sessions && w.sessions[id].phase == FirstSync && w.sessions[id].closed
  }

  lemma {:induction false} OpenedOnce(run: seq<World>, steps: seq<Step>, id: SessionId, i: nat, j: nat)
    requires IsRun(run, steps) && i <= j <= |steps| && id in run[i].sessions
    ensures id in run[j].sessions
    decreases j
  {
    if i < j {
      OpenedOnce(run, steps, id, i, j - 1);
      SessionsStay(run[j - 1], steps[j - 1], id);
    }
  }

  lemma {:induction false} NewcomerIsQuiet(w: World, step: Step, id: SessionId)
    requires Enabled(w, step) && id !in w.sessions && id in Next(w, step).sessions
    ensures !Leaks(Next(w, step).sessions[id])
  {
  }

  /** In every run, a session's heartbeat timer runs on after its close, which had stopped it, exactly if some
      earlier step ended the hello of the session after it had been closed. */
  lemma {:induction false} TimerOutlivesClose(run: seq<World>, steps: seq<Step>, id: SessionId, k: nat)
    requires IsRun(run, steps) && k <= |steps| && id in run[k].sessions
    ensures Leaks(run[k].sessions[id]) <==> exists i :: 0 <= i < k && ResumesClosed(run[i], steps[i], id)
    decreases k
  {
    if id in run[k - 1].sessions {
      TimerOutlivesClose(run, steps, id, k - 1);
      if Leaks(run[k - 1].sessions[id]) {
        LeakStays(run[k - 1], steps[k - 1], id);
      } else {
        TimerStep(run[k - 1], steps[k - 1], id);
        assert ResumesClosed(run[k - 1], steps[k - 1], id) <==> Leaks(run[k].sessions[id]);
      }
    } else {
      NewcomerIsQuiet(run[k - 1], steps[k - 1], id);
      forall i | 0 <= i < k ensures !ResumesClosed(run[i], steps[i], id) {
        if id in run[i].sessions {
          OpenedOnce(run, steps, id, i, k - 1);
        }
      }
    }
  }

  // ---- Ending many sessions

  /** The closes of `TerminateByAccount` and its like, one after the other, each a step of the machine. */
  function CloseAll(w: World, ids: seq<SessionId>): (w': World)
    requires forall id :: id in ids ==> id in w.sessions
    ensures w'.sessions.Keys == w.sessions.Keys
  {
    if ids == [] then w else Next(CloseAll(w, ids[..|ids| - 1]), CloseSession(ids[|ids| - 1]))
  }

  /** What closing a registered session does, and all it does. */
  lemma {:induction false} CloseOfRegistered(w: World, p: Provider)
    requires RegistryInv(w) && p in w.registry
    ensures var id := w.registry[p];
            && Enabled(w, CloseSession(id))
            && Next(w, CloseSession(id)) ==
                 w.(sessions := w.sessions[id := Close(w.sessions[id])], registry := w.registry - {p})
  {
  }

  predicate HeldBy(registry: Registry, all: set<Provider>, id: SessionId) {
    exists p :: p in all && p in registry && registry[p] == id
  }

  /** The entries of these providers are gone, their sessions are closed, and nothing else has changed. */
  ghost predicate EndedExactly(w: World, w': World, all: set<Provider>) {
    && w'.registry == w.registry - all && w'.log == w.log && w'.sessions.Keys == w.sessions.Keys
    && (forall id :: id in w.sessions ==>
          w'.sessions[id] == if HeldBy(w.registry, all, id) then Close(w.sessions[id]) else w.sessions[id])
  }

  lemma {:induction false} OneMoreEnding(w: World, before: World, all: set<Provider>, p: Provider)
    requires RegistryInv(w) && EndedExactly(w, before, all) && p in w.registry && p !in all
    requires w.registry[p] in before.sessions
    ensures var id := w.registry[p];
            EndedExactly(w, before.(sessions := before.sessions[id := Close(before.sessions[id])],
                                    registry := before.registry - {p}), all + {p})
  {
    hide Close;
    forall id | id in w.sessions
      ensures HeldBy(w.registry, all + {p}, id) <==> HeldBy(w.registry, all, id) || id == w.registry[p]
      ensures id == w.registry[p] ==> !HeldBy(w.registry, all, id)
    {
    }
    assert w.registry - all - {p} == w.registry - (all + {p});
  }

  lemma {:induction false} EndingStep(w: World, before: World, all: set<Provider>, p: Provider)
    requires RegistryInv(w) && EndedExactly(w, before, all) && RegistryInv(before) && p in w.registry && p !in all
    ensures var id := w.registry[p];
            && id in before.sessions && Enabled(before, CloseSession(id))
            && EndedExactly(w, Next(before, CloseSession(id)), all + {p}) && RegistryInv(Next(before, CloseSession(id)))
  {
    CloseOfRegistered(before, p);
    OneMoreEnding(w, before, all, p);
    CloseKeepsRegistry(before, w.registry[p]);
  }

  lemma {:induction false} EntriesAreSessions(w: World, order: seq<Provider>)
    requires RegistryInv(w) && forall p :: p in order ==> p in w.registry
    ensures forall id :: id in EntriesOf(w.registry, order) ==> id in w.sessions
  {
  }

  lemma {:induction false} OneLess(registry: Registry, order: seq<Provider>, all: set<Provider>)
    requires ListedOnce(order, all) && all <= registry.Keys && order != []
    ensures var n := |order| - 1;
            var last, ids := order[n], EntriesOf(registry, order);
            && last in all && all - {last} + {last} == all && ListedOnce(order[..n], all - {last})
            && |ids| == n + 1 && ids[..n] == EntriesOf(registry, order[..n]) && ids[n] == registry[last]
  {
    var n := |order| - 1;
    forall p ensures p in order[..n] <==> p in all - {order[n]} {
      assert p in all <==> p in order;
    }
  }

  lemma {:induction false} NothingEnded(w: World)
    ensures EndedExactly(w, w, {})
  {
  }

  lemma {:induction false} EndingGrows(w: World, ids: seq<SessionId>, all: set<Provider>, p: Provider)
    requires ids != [] && (forall id :: id in ids ==> id in w.sessions)
    requires RegistryInv(w) && p in w.registry && p !in all && w.registry[p] == ids[|ids| - 1]
    requires var before := CloseAll(w, ids[..|ids| - 1]);
             EndedExactly(w, before, all) && RegistryInv(before)
    ensures EndedExactly(w, CloseAll(w, ids), all + {p}) && RegistryInv(CloseAll(w, ids))
  {
    hide RegistryInv, EndedExactly, Next, Enabled;
    EndingStep(w, CloseAll(w, ids[..|ids| - 1]), all, p);
  }

  /** Closing the sessions that the registry holds for some providers empties exactly their entries, closes
      exactly their sessions and records nothing; so what `TerminateByAccount` leaves in the registry is what
      these steps of the machine leave. */
  lemma {:induction false} EndingIsExact(w: World, order: seq<Provider>, all: set<Provider>)
    requires RegistryInv(w) && ListedOnce(order, all) && all <= w.registry.Keys
    ensures forall id :: id in EntriesOf(w.registry, order) ==> id in w.sessions
    ensures EndedExactly(w, CloseAll(w, EntriesOf(w.registry, order)), all)
    ensures RegistryInv(CloseAll(w, EntriesOf(w.registry, order)))
    decreases |order|
  {
    EntriesAreSessions(w, order);
    if order == [] {
      assert all == {};
      NothingEnded(w);
    } else {
      var n, last, ids := |order| - 1, order[|order| - 1], EntriesOf(w.registry, order);
      OneLess(w.registry, order, all);
      hide RegistryInv, EndedExactly, CloseAll, ListedOnce, EntriesOf;
      EndingIsExact(w, order[..n], all - {last});
      EndingGrows(w, ids, all - {last}, last);
    }
  }

  lemma {:induction false} Extend(run: seq<World>, steps: seq<Step>, step: Step)
    returns (run': seq<World>, steps': seq<Step>)
    requires IsRun(run, steps) && Enabled(run[|steps|], step)
    ensures IsRun(run', steps') && run'[|steps'|] == Next(run[|steps|], step) && steps' == steps + [step]
  {
    run', steps' := run + [Next(run[|steps|], step)], steps + [step];
    forall i | 0 <= i < |steps'| ensures Enabled(run'[i], steps'[i]) && run'[i + 1] == Next(run'[i], steps'[i]) {
      if i < |steps| {
        assert run'[i] == run[i] && run'[i + 1] == run[i + 1] && steps'[i] == steps[i];
      }
    }
  }

  lemma {:induction false} HelloInProgress(id: SessionId, p: Provider) returns (run: seq<World>, steps: seq<Step>)
    ensures IsRun(run, steps)
    ensures steps == [Open(id, p), Arrive(id, Hello(1)), Take(id), Commit(id), Resume(id)]
    ensures id in run[|steps|].sessions
    ensures run[|steps|].sessions[id] ==
              NewSession(p).(arrived := 1, helloSeen := true, connectedRecorded := true, phase := Loading)
  {
    run, steps := [World(map[], map[], [])], [];
    run, steps := Extend(run, steps, Open(id, p));
    run, steps := Extend(run, steps, Arrive(id, Hello(1)));
    assert run[|steps|].sessions[id] == NewSession(p).(queue := [Hello(1)], arrived := 1);
    run, steps := Extend(run, steps, Take(id));
    assert run[|steps|].sessions[id] == NewSession(p).(arrived := 1, helloSeen := true, phase := Appending);
    run, steps := Extend(run, steps, Commit(id));
    run, steps := Extend(run, steps, Resume(id));
  }

  /** It happens: a session closed while its hello is being answered. */
  lemma {:induction false} ClosedDuringHello(id: SessionId, p: Provider) returns (run: seq<World>, steps: seq<Step>)
    ensures IsRun(run, steps)
    ensures steps == [Open(id, p), Arrive(id, Hello(1)), Take(id), Commit(id), Resume(id), CloseSession(id), Resume(id),
                      Resume(id)]
    ensures id in run[|steps|].sessions && Leaks(run[|steps|].sessions[id])
  {
    run, steps := HelloInProgress(id, p);
    run, steps := Extend(run, steps, CloseSession(id));
    assert run[|steps|].sessions[id].closed && run[|steps|].sessions[id].phase == Loading;
    run, steps := Extend(run, steps, Resume(id));
    assert run[|steps|].sessions[id].closed && run[|steps|].sessions[id].phase == FirstSync;
    run, steps := Extend(run, steps, Resume(id));
  }
}

/** Coalescing of change triggers into publish runs. */
module Coordinator {
  import opened Options

  /** The id of the event that caused a trigger. */
  type ChangeId(==, !new)

  datatype Pending = Pending(accountId: string, causationIds: seq<ChangeId>, timer: bool, running: bool, dirty: bool)

  /** One call of the publisher: the last cause is its own, the earlier ones are absorbed. */
  datatype Call = Call(cause: Option<ChangeId>, absorbed: seq<ChangeId>)

  function Triggered(entry: Option<Pending>, accountId: string, cause: Option<ChangeId>): Pending {
    var e := if entry.Some? then entry.value else Pending(accountId, [], false, false, false);
    Pending(accountId, e.causationIds + (if cause.Some? then [cause.value] else []),
            e.timer || !e.running, e.running, e.dirty || e.running)
  }

  /** A trigger adds its cause; it marks a run in flight dirty, and otherwise sees that the timer is armed. */
  lemma {:induction false} TriggeredSays(entry: Option<Pending>, accountId: string, cause: Option<ChangeId>)
    ensures var e := Triggered(entry, accountId, cause);
            && (entry.None? ==> e.timer && !e.running && !e.dirty && e.accountId == accountId)
            && (entry.None? ==> e.causationIds == if cause.Some? then [cause.value] else [])
            && (entry.Some? ==>
                  var was := entry.value;
                  && e.accountId == accountId && e.running == was.running
                  && e.causationIds == (if cause.Some? then was.causationIds + [cause.value] else was.causationIds)
                  && (was.running ==> e.dirty && e.timer == was.timer)
                  && (!was.running ==> e.timer && e.dirty == was.dirty))
  {
  }

  function Begun(e: Pending): Pending {
    e.(timer := false, running := true, dirty := false, causationIds := [])
  }

  function CallOf(causes: seq<ChangeId>): (c: Call)
    ensures Causes(c) == causes
  {
    if causes == [] then Call(None, []) else Call(Some(causes[|causes| - 1]), causes[..|causes| - 1])
  }

  /** All the changes a call accounts for, in arrival order. */
  function Causes(c: Call): seq<ChangeId> {
    c.absorbed + (if c.cause.Some? then [c.cause.value] else [])
  }

  function Ended(e: Pending, stopped: bool): Option<Pending> {
    if e.dirty && !stopped then Some(e.(running := false, timer := true)) else None
  }

  class SnapshotCoordinator {
    var pending: map<string, Pending>
    var stopped: bool

    constructor ()
      ensures pending == map[] && !stopped
    {
      pending, stopped := map[], false;
    }

    function Entry(providerId: string): Option<Pending>
      reads this
    {
      if providerId in pending then Some(pending[providerId]) else None
    }

    method Schedule(accountId: string, providerIds: seq<string>, causationId: Option<ChangeId>)
      modifies this
      ensures stopped == old(stopped)
      ensures forall p :: Entry(p) ==
                          if p in providerIds && !old(stopped)
                          then Some(Triggered(old(Entry(p)), accountId, causationId))
                          else old(Entry(p))
    {
      if stopped {
        return;
      }
      var rest := set p | p in providerIds;
      while rest != {}
        invariant !stopped
        invariant forall p :: p in rest ==> p in providerIds
        invariant forall p :: Entry(p) ==
                              if p in providerIds && p !in rest
                              then Some(Triggered(old(Entry(p)), accountId, causationId))
                              else old(Entry(p))
        decreases rest
      {
        var providerId :| providerId in rest;
        var entry := if providerId in pending then pending[providerId] else Pending(accountId, [], false, false, false);
        entry := entry.(accountId := accountId);
        if causationId.Some? {
          entry := entry.(causationIds := entry.causationIds + [causationId.value]);
        }
        if entry.running {
          entry := entry.(dirty := true);
        } else if !entry.timer {
          entry := entry.(timer := true);
        }
        assert entry == Triggered(Entry(providerId), accountId, causationId);
        pending := pending[providerId := entry];
        rest := rest - {providerId};
      }
    }

    /** From the timer to the call of the publisher. */
    method RunBegin(providerId: string) returns (call: Option<Call>)
      modifies this
      ensures stopped == old(stopped)
      ensures call == if old(Entry(providerId)).None? || old(stopped) then None
                      else Some(CallOf(old(Entry(providerId)).value.causationIds))
      ensures forall p :: Entry(p) ==
                          if p == providerId && call.Some? then Some(Begun(old(Entry(p)).value)) else old(Entry(p))
      ensures call.Some? ==>
                var causes, e := old(Entry(providerId)).value.causationIds, Entry(providerId);
                && e.Some? && e.value.running && !e.value.timer && !e.value.dirty && e.value.causationIds == []
                && e.value.accountId == old(Entry(providerId)).value.accountId
                && (causes == [] ==> call.value.cause == None && call.value.absorbed == [])
                && (causes != [] ==>
                      call.value.cause == Some(causes[|causes| - 1]) && call.value.absorbed == causes[..|causes| - 1])
    {
      if providerId !in pending || stopped {
        return None;
      }
      var entry := pending[providerId];
      entry := entry.(timer := false, running := true, dirty := false);
      call := Some(CallOf(entry.causationIds));
      entry := entry.(causationIds := []);
      pending := pending[providerId := entry];
    }

    /** The `finally` of a run, whether its publish succeeded or failed. */
    method RunEnd(providerId: string)
      modifies this
      ensures stopped == old(stopped)
      ensures forall p :: Entry(p) ==
                          if p == providerId && old(Entry(p)).Some? then Ended(old(Entry(p)).value, stopped)
                          else old(Entry(p))
      ensures old(Entry(providerId)).Some? ==>
                var was := old(Entry(providerId)).value;
                Entry(providerId) == if was.dirty && !stopped then Some(was.(running := false, timer := true)) else None
    {
      if providerId !in pending {
        return;
      }
      var entry := pending[providerId].(running := false);
      if entry.dirty && !stopped {
        pending := pending[providerId := entry.(timer := true)];
      } else {
        pending := pending - {providerId};
      }
    }

    method Stop()
      modifies this
      ensures stopped && forall p :: Entry(p) == None
    {
      stopped := true;
      pending := map[];
    }
  }

  /** The coordinator as one provider sees it, with a record of what was accepted and what was handed on.
      `triggers` counts the triggers since the last run began and `begun` lists its value at each beginning. */
  datatype State = State(
    entry: Option<Pending>,
    stopped: bool,
    inFlight: nat,
    accepted: seq<ChangeId>,
    calls: seq<Call>,
    triggers: nat,
    begun: seq<nat>)

  const INITIAL := State(None, false, 0, [], [], 0, [])

  datatype Step = Trigger(accountId: string, cause: Option<ChangeId>) | TimerFires | RunEnds | Stop

  predicate Enabled(s: State, step: Step) {
    match step
    case Trigger(_, _) => true
    case TimerFires => s.entry.Some? && s.entry.value.timer
    case RunEnds => s.inFlight > 0
    case Stop => true
  }

  function Next(s: State, step: Step): State
    requires Enabled(s, step)
  {
    match step
    case Trigger(account, cause) =>
      if s.stopped then s else
        s.(entry := Some(Triggered(s.entry, account, cause)),
           accepted := s.accepted + (if cause.Some? then [cause.value] else []),
           triggers := s.triggers + 1)
    case TimerFires =>
      s.(entry := Some(Begun(s.entry.value)),
         inFlight := s.inFlight + 1,
         calls := s.calls + [CallOf(s.entry.value.causationIds)],
         triggers := 0,
         begun := s.begun + [s.triggers])
    case RunEnds =>
      s.(entry := if s.entry.Some? then Ended(s.entry.value, s.stopped) else None, inFlight := s.inFlight - 1)
    case Stop => s.(entry := None, stopped := true)
  }

  function AllCauses(calls: seq<Call>): seq<ChangeId> {
    if calls == [] then [] else AllCauses(calls[..|calls| - 1]) + Causes(calls[|calls| - 1])
  }

  function Waiting(entry: Option<Pending>): seq<ChangeId> {
    if entry.Some? then entry.value.causationIds else []
  }

  ghost predicate EntryInv(e: Pending) {
    && e.timer != e.running
    && (e.running && e.causationIds != [] ==> e.dirty)
  }

  ghost predicate Inv(s: State) {
    && s.inFlight <= 1
    && (forall i :: 0 <= i < |s.begun| ==> s.begun[i] >= 1)
    && AllCauses(s.calls) + Waiting(s.entry) <= s.accepted
    && (s.stopped ==> s.entry.None?)
    && (!s.stopped ==>
          && AllCauses(s.calls) + Waiting(s.entry) == s.accepted
          && (s.entry.Some? ==> EntryInv(s.entry.value))
          && (s.inFlight == 1 <==> s.entry.Some? && s.entry.value.running)
          && (s.entry.Some? && (s.entry.value.timer || s.entry.value.dirty) ==> s.triggers >= 1))
  }

  lemma {:induction false} StepKeepsInv(s: State, step: Step)
    requires Inv(s) && Enabled(s, step)
    ensures Inv(Next(s, step))
  {
    var s' := Next(s, step);
    if step.TimerFires? {
      assert s'.calls[..|s.calls|] == s.calls;
      assert AllCauses(s'.calls) == AllCauses(s.calls) + s.entry.value.causationIds;
    } else if step.Trigger? && !s.stopped {
      assert AllCauses(s'.calls) + Waiting(s'.entry) ==
             (AllCauses(s.calls) + Waiting(s.entry)) + (if step.cause.Some? then [step.cause.value] else []);
    }
  }

  ghost predicate IsRun(run: seq<State>, steps: seq<Step>) {
    && |run| == |steps| + 1
    && run[0] == INITIAL
    && forall i :: 0 <= i < |steps| ==> Enabled(run[i], steps[i]) && run[i + 1] == Next(run[i], steps[i])
  }

  /** Cause conservation: until the coordinator is stopped, the accepted changes in order are those of the
      publish calls followed by those still pending. At most one run is in flight, and each run was
      triggered anew after the one before it began. Stopping only drops what was pending. */
  lemma {:induction false} CausesAreConserved(run: seq<State>, steps: seq<Step>)
    requires IsRun(run, steps)
    ensures var s := run[|steps|];
            && Inv(s)
            && AllCauses(s.calls) <= s.accepted
            && (!s.stopped ==> s.accepted == AllCauses(s.calls) + Waiting(s.entry))
            && s.inFlight <= 1
            && (forall i :: 0 <= i < |s.begun| ==> s.begun[i] >= 1)
    decreases |steps|
  {
    if |steps| > 0 {
      var k := |steps| - 1;
      CausesAreConserved(run[..k + 1], steps[..k]);
      StepKeepsInv(run[k], steps[k]);
    }
  }

  /** Something is still going to happen for every accepted change that was not handed on. */
  lemma {:induction false} NothingIsForgotten(s: State)
    requires Inv(s) && !s.stopped && s.accepted != AllCauses(s.calls)
    ensures s.entry.Some? && (s.entry.value.timer || (s.entry.value.dirty && s.inFlight == 1))
  {
    assert Waiting(s.entry) != [];
  }
}

/** A snapshot's version determines everything else about it. */
module Versions {
  import opened Options
  import opened Snapshot
  import opened TraefikProvider
  import opened Publication
  import Action
  import IpClient
  import C = Coordinator

  /** The event of this number recorded exactly this payload. */
  predicate Recorded(stream: seq<Event>, h: Payload) {
    && 1 <= h.version <= |stream|
    && var e := stream[h.version - 1];
       e.SnapshotPublished? && e.content == h.content && e.correlationId == h.correlationId
       && e.publishedAt == h.generatedAt
  }

  function PayloadOf(l: Published): Payload {
    Payload(l.content, l.version, l.correlationId, l.publishedAt)
  }

  /** The stream alone: the last publication is on record, and each one differs from the one before. */
  ghost predicate StreamInv(stream: seq<Event>) {
    var last := Replay(stream).lastPublished;
    && (last.Some? ==> Recorded(stream, PayloadOf(last.value)))
    && (forall j :: 0 <= j < |stream| && stream[j].SnapshotPublished? && Replay(stream[..j]).lastPublished.Some? ==>
          Replay(stream[..j]).lastPublished.value.content != stream[j].content)
  }

  /** Only the head holds the mutex, and nobody else can have published since it loaded. */
  ghost predicate QueueInv(queue: seq<Job>, stream: seq<Event>) {
    && (forall i :: 1 <= i < |queue| ==> queue[i].phase.Queued?)
    && (queue != [] && !queue[0].phase.Queued? ==> queue[0].phase.base == Replay(stream).lastPublished)
  }

  ghost predicate HandedInv(handed: seq<Payload>, stream: seq<Event>) {
    var last := Replay(stream).lastPublished;
    && (forall i :: 0 <= i < |handed| ==> Recorded(stream, handed[i]))
    && (forall i :: 0 <= i < |handed| ==> last.Some? && handed[i].version <= last.value.version)
    && (forall i, j :: 0 <= i < j < |handed| ==> handed[i].version <= handed[j].version)
  }

  ghost predicate Inv(s: System) {
    StreamInv(s.stream) && QueueInv(s.queue, s.stream) && HandedInv(s.handed, s.stream)
  }

  lemma {:induction false} StreamGrows(stream: seq<Event>, e: Event)
    requires StreamInv(stream)
    requires e.SnapshotPublished? && Replay(stream).lastPublished.Some? ==>
               Replay(stream).lastPublished.value.content != e.content
    ensures StreamInv(stream + [e])
    ensures e.SnapshotPublished? ==>
              Replay(stream + [e]).lastPublished ==
                Some(Published(|stream| + 1, e.content, e.correlationId, e.publishedAt))
    ensures !e.SnapshotPublished? ==> Replay(stream + [e]).lastPublished == Replay(stream).lastPublished
    ensures forall h :: Recorded(stream, h) ==> Recorded(stream + [e], h)
  {
    ReplayAppend(stream, e);
    var stream' := stream + [e];
    forall h | Recorded(stream, h) ensures Recorded(stream', h) {
      RecordStays(stream, e, h);
    }
    forall j | 0 <= j < |stream'| && stream'[j].SnapshotPublished? && Replay(stream'[..j]).lastPublished.Some?
      ensures Replay(stream'[..j]).lastPublished.value.content != stream'[j].content
    {
      assert stream'[..j] == if j < |stream| then stream[..j] else stream;
    }
  }

  lemma {:induction false} HandedGrows(handed: seq<Payload>, stream: seq<Event>, e: Event)
    requires StreamInv(stream) && HandedInv(handed, stream) && e.SnapshotPublished?
    requires StreamInv(stream + [e])
    requires Replay(stream + [e]).lastPublished ==
               Some(Published(|stream| + 1, e.content, e.correlationId, e.publishedAt))
    ensures HandedInv(handed + [Payload(e.content, |stream| + 1, e.correlationId, e.publishedAt)], stream + [e])
  {
    var stream' := stream + [e];
    forall i | 0 <= i < |handed| ensures Recorded(stream', handed[i]) && handed[i].version <= |stream| {
      assert Recorded(stream, handed[i]);
    }
    assert Recorded(stream', Payload(e.content, |stream| + 1, e.correlationId, e.publishedAt));
  }

  lemma {:induction false} RecordStays(stream: seq<Event>, e: Event, h: Payload)
    requires Recorded(stream, h)
    ensures h.version <= |stream + [e]| && Recorded(stream + [e], h)
  {
  }

  lemma {:induction false} HandedStays(handed: seq<Payload>, stream: seq<Event>, e: Event)
    requires HandedInv(handed, stream) && Replay(stream + [e]).lastPublished == Replay(stream).lastPublished
    ensures HandedInv(handed, stream + [e])
  {
    forall i | 0 <= i < |handed| ensures Recorded(stream + [e], handed[i]) {
      RecordStays(stream, e, handed[i]);
    }
  }

  lemma {:induction false} HandedAgain(handed: seq<Payload>, stream: seq<Event>)
    requires StreamInv(stream) && HandedInv(handed, stream) && Replay(stream).lastPublished.Some?
    ensures HandedInv(handed + [PayloadOf(Replay(stream).lastPublished.value)], stream)
  {
  }

  lemma {:induction false} DecisionKeeps(stream: seq<Event>, handed: seq<Payload>, content: Content, fits: bool,
          call: Call, serial: nat, now: int)
    requires StreamInv(stream) && HandedInv(handed, stream)
    ensures var decision := Decide(Replay(stream).lastPublished, content, fits, call, serial, now);
            var stream' := stream + (if decision.Unchanged? then [] else [decision.event]);
            var result := Outcome(decision, |stream| + 1);
            && StreamInv(stream')
            && HandedInv(handed + (if result.Some? then [result.value.snapshot] else []), stream')
  {
    hide StreamInv, HandedInv, Replay;
    var decision := Decide(Replay(stream).lastPublished, content, fits, call, serial, now);
    if decision.Unchanged? {
      assert stream + [] == stream;
      HandedAgain(handed, stream);
    } else {
      StreamGrows(stream, decision.event);
      if decision.Publish? {
        HandedGrows(handed, stream, decision.event);
      } else {
        assert handed + [] == handed;
        HandedStays(handed, stream, decision.event);
      }
    }
  }

  lemma {:induction false} ForeignKeeps(stream: seq<Event>, handed: seq<Payload>, queue: seq<Job>, e: Event)
    requires StreamInv(stream) && HandedInv(handed, stream) && QueueInv(queue, stream) && IsForeign(e)
    ensures StreamInv(stream + [e]) && HandedInv(handed, stream + [e]) && QueueInv(queue, stream + [e])
  {
    StreamGrows(stream, e);
    HandedStays(handed, stream, e);
  }

  lemma {:induction false} QueueMoves(queue: seq<Job>, stream: seq<Event>, job: Job, phase: Phase)
    requires QueueInv(queue, stream)
    ensures job.phase.Queued? ==> QueueInv(queue + [job], stream)
    ensures queue != [] ==> forall stream' :: QueueInv(queue[1..], stream')
    ensures queue != [] && (!phase.Queued? ==> phase.base == Replay(stream).lastPublished) ==>
              QueueInv([queue[0].(phase := phase)] + queue[1..], stream)
  {
  }

  lemma {:induction false} StepKeepsInv(p: string, fits: Content -> bool, s: System, step: Step)
    requires Inv(s) && Enabled(p, s, step)
    ensures Inv(Next(p, fits, s, step))
  {
    if step.Finish? {
      FinishKeepsInv(p, fits, s, step);
    } else if step.Load? || step.Fail? {
      HeadKeepsInv(p, fits, s, step);
    } else if step.TimerFires? || step.PublishCall? {
      ArrivalInParts(p, fits, s, step);
      hide Next;
      QueueMoves(s.queue, s.stream, Next(p, fits, s, step).queue[|s.queue|], Queued);
    } else if step.Foreign? {
      ForeignKeeps(s.stream, s.handed, s.queue, step.event);
    } else {
      ReadingKeepsInv(p, fits, s, step);
    }
  }

  lemma {:induction false} FinishKeepsInv(p: string, fits: Content -> bool, s: System, step: Step)
    requires Inv(s) && Enabled(p, s, step) && step.Finish?
    ensures Inv(Next(p, fits, s, step))
  {
    var ph := s.queue[0].phase;
    FinishInParts(p, fits, s, step.now);
    DecisionKeeps(s.stream, s.handed, ph.content, fits(ph.content), s.queue[0].call, s.serial, step.now);
    QueueMoves(s.queue, s.stream, s.queue[0], ph);
    hide Next, StreamInv, HandedInv, QueueInv, Decide;
  }

  lemma {:induction false} HeadKeepsInv(p: string, fits: Content -> bool, s: System, step: Step)
    requires Inv(s) && Enabled(p, s, step) && (step.Load? || step.Fail?)
    ensures Inv(Next(p, fits, s, step))
  {
    LoadInParts(p, fits, s, step);
    QueueMoves(s.queue, s.stream, s.queue[0], Loaded(Replay(s.stream).lastPublished, Replay(s.stream).name));
    hide Next, StreamInv, HandedInv, QueueInv;
  }

  lemma {:induction false} ReadingInParts(p: string, fits: Content -> bool, s: System, step: Step)
    requires Enabled(p, s, step)
    requires !step.Finish? && !step.Foreign? && !step.TimerFires? && !step.PublishCall? && !step.Load? && !step.Fail?
    ensures var s' := Next(p, fits, s, step);
            && s'.stream == s.stream && s'.handed == s.handed
            && (|| s'.queue == s.queue
                || (s.queue != [] && s'.queue == [s.queue[0].(phase := s'.queue[0].phase)] + s.queue[1..]
                    && !s.queue[0].phase.Queued? && !s'.queue[0].phase.Queued?
                    && s'.queue[0].phase.base == s.queue[0].phase.base))
  {
    hide Replay, C.Next, Action.Reduce, IpClient.Reduce, Groups;
  }

  lemma {:induction false} ReadingKeepsInv(p: string, fits: Content -> bool, s: System, step: Step)
    requires Inv(s) && Enabled(p, s, step)
    requires !step.Finish? && !step.Foreign? && !step.TimerFires? && !step.PublishCall? && !step.Load? && !step.Fail?
    ensures Inv(Next(p, fits, s, step))
  {
    var s' := Next(p, fits, s, step);
    ReadingInParts(p, fits, s, step);
    if s'.queue != s.queue {
      QueueMoves(s.queue, s.stream, s.queue[0], s'.queue[0].phase);
    }
  }

  lemma {:induction false} InitInv(p: string, s: System)
    requires Init(p, s)
    ensures Inv(s)
  {
    var name :| s.stream == [Created(name)];
    assert [Created(name)][..0] == [];
  }

  lemma {:induction false} InvHolds(p: string, fits: Content -> bool, run: seq<System>, steps: seq<Step>, k: nat)
    requires IsRun(p, fits, run, steps) && k <= |steps|
    ensures Inv(run[k])
    decreases k
  {
    if k == 0 {
      InitInv(p, run[0]);
    } else {
      hide Inv, Init, Follows;
      InvHolds(p, fits, run, steps, k - 1);
      InvFollows(p, fits, run, steps, k - 1);
    }
  }

  lemma {:induction false} InvFollows(p: string, fits: Content -> bool, run: seq<System>, steps: seq<Step>, i: nat)
    requires i < |steps| < |run| && Follows(p, fits, run, steps, i) && Inv(run[i])
    ensures Inv(run[i + 1])
  {
    StepKeepsInv(p, fits, run[i], steps[i]);
  }

  /** Any two snapshots handed out under one version are the same snapshot, and versions never decrease in
      the order in which the mutex admits the calls. */
  lemma {:induction false} VersionDeterminesSnapshot(p: string, fits: Content -> bool, run: seq<System>,
          steps: seq<Step>, i: nat, j: nat)
    requires IsRun(p, fits, run, steps)
    requires i <= j < |run[|steps|].handed|
    ensures var handed := run[|steps|].handed;
            && handed[i].version <= handed[j].version
            && (handed[i].version == handed[j].version ==> handed[i] == handed[j])
  {
    InvHolds(p, fits, run, steps, |steps|);
    var s := run[|steps|];
    assert Recorded(s.stream, s.handed[i]) && Recorded(s.stream, s.handed[j]);
  }

  /** A publication never repeats the content of the one before it. */
  lemma {:induction false} ConsecutivePublicationsDiffer(p: string, fits: Content -> bool, run: seq<System>,
          steps: seq<Step>, i: nat, j: nat)
    requires IsRun(p, fits, run, steps)
    requires i < j < |run[|steps|].stream| && run[|steps|].stream[i].SnapshotPublished?
    requires run[|steps|].stream[j].SnapshotPublished?
    requires forall k :: i < k < j ==> !run[|steps|].stream[k].SnapshotPublished?
    ensures run[|steps|].stream[i].content != run[|steps|].stream[j].content
  {
    InvHolds(p, fits, run, steps, |steps|);
    var stream := run[|steps|].stream;
    LastStays(stream, i, j);
  }

  lemma {:induction false} LastStays(stream: seq<Event>, i: nat, j: nat)
    requires i < j <= |stream| && stream[i].SnapshotPublished?
    requires forall k :: i < k < j ==> !stream[k].SnapshotPublished?
    ensures Replay(stream[..j]).lastPublished.Some?
    ensures Replay(stream[..j]).lastPublished.value.content == stream[i].content
    decreases j
  {
    assert stream[..j] == stream[..j - 1] + [stream[j - 1]];
    ReplayAppend(stream[..j - 1], stream[j - 1]);
    if i + 1 < j {
      LastStays(stream, i, j - 1);
    }
  }

  // ---- What is announced

  /** The publications on record, each with its number. */
  function Publications(stream: seq<Event>): seq<Payload> {
    if stream == [] then [] else
      var e := stream[|stream| - 1];
      Publications(stream[..|stream| - 1])
      + (if e.SnapshotPublished? then [Payload(e.content, |stream|, e.correlationId, e.publishedAt)] else [])
  }

  lemma {:induction false} PublicationsAppend(stream: seq<Event>, e: Event)
    ensures Publications(stream + [e]) ==
              Publications(stream)
              + (if e.SnapshotPublished?
                 then [Payload(e.content, |stream| + 1, e.correlationId, e.publishedAt)] else [])
  {
    assert (stream + [e])[..|stream|] == stream;
  }

  lemma {:induction false} DecisionAnnounces(stream: seq<Event>, last: Option<Published>, content: Content, fits: bool,
          call: Call, serial: nat, now: int)
    ensures var decision := Decide(last, content, fits, call, serial, now);
            var result := Outcome(decision, |stream| + 1);
            Publications(stream + (if decision.Unchanged? then [] else [decision.event])) ==
              Publications(stream) + (if result.Some? && result.value.changed then [result.value.snapshot] else [])
  {
    var decision := Decide(last, content, fits, call, serial, now);
    if decision.Unchanged? {
      assert stream + [] == stream;
    } else {
      PublicationsAppend(stream, decision.event);
    }
    hide Publications;
  }

  lemma {:induction false} StepAnnounces(p: string, fits: Content -> bool, s: System, step: Step)
    requires s.announced == Publications(s.stream) && Enabled(p, s, step)
    ensures Next(p, fits, s, step).announced == Publications(Next(p, fits, s, step).stream)
  {
    hide Publications, Replay, C.Next, Action.Reduce, IpClient.Reduce, Groups, Decide, Outcome;
    if step.Finish? {
      var ph := s.queue[0].phase;
      FinishInParts(p, fits, s, step.now);
      DecisionAnnounces(s.stream, ph.base, ph.content, fits(ph.content), s.queue[0].call, s.serial, step.now);
    } else if step.Foreign? {
      PublicationsAppend(s.stream, step.event);
    }
  }

  /** In every run, what the publish calls returned as changed, and so what the coordinator pushes, is exactly the
      publications on record, each once and in their order. */
  lemma {:induction false} AnnouncedAreThePublications(p: string, fits: Content -> bool, run: seq<System>,
          steps: seq<Step>, k: nat)
    requires IsRun(p, fits, run, steps) && k <= |steps|
    ensures run[k].announced == Publications(run[k].stream)
    decreases k
  {
    hide Next, Enabled;
    if k == 0 {
      var name :| run[0].stream == [Created(name)];
      PublicationsAppend([], Created(name));
      assert [] + [Created(name)] == [Created(name)];
    } else {
      AnnouncedAreThePublications(p, fits, run, steps, k - 1);
      assert Follows(p, fits, run, steps, k - 1);
      StepAnnounces(p, fits, run[k - 1], steps[k - 1]);
    }
  }

  /** A call that gets to its end hands out the last publication on record, which then has the content the call built:
      it was so before, or it is the one the call has just recorded. If the content does not fit, that is recorded. */
  lemma {:induction false} FinishHandsOut(p: string, fits: Content -> bool, s: System, now: int)
    requires Inv(s) && Enabled(p, s, Finish(now))
    ensures var s', content := Next(p, fits, s, Finish(now)), s.queue[0].phase.content;
            var last, last' := Replay(s.stream).lastPublished, Replay(s'.stream).lastPublished;
            if last.Some? && last.value.content == content then
              s'.stream == s.stream && s'.handed == s.handed + [PayloadOf(last.value)]
            else if !fits(content) then
              && |s'.stream| == |s.stream| + 1 && s'.stream[|s.stream|].SnapshotPublishFailed?
              && s'.handed == s.handed && last' == last
            else
              && s'.stream[..|s'.stream| - 1] == s.stream && last'.Some? && last'.value.content == content
              && last'.value.version == |s'.stream| && last'.value.publishedAt == now
              && s'.handed == s.handed + [PayloadOf(last'.value)]
  {
    FinishInParts(p, fits, s, now);
    hide Next, StreamInv, HandedInv, Enabled;
    FinishDecides(s, fits, now);
  }

  lemma {:induction false} FinishDecides(s: System, fits: Content -> bool, now: int)
    requires s.queue != [] && s.queue[0].phase.Built? && QueueInv(s.queue, s.stream)
    ensures var content, last := s.queue[0].phase.content, Replay(s.stream).lastPublished;
            var decision := Decide(s.queue[0].phase.base, content, fits(content), s.queue[0].call, s.serial, now);
            var stream' := s.stream + (if decision.Unchanged? then [] else [decision.event]);
            var result, last' := Outcome(decision, |s.stream| + 1), Replay(stream').lastPublished;
            if last.Some? && last.value.content == content then
              && decision.Unchanged? && stream' == s.stream
              && result.Some? && result.value.snapshot == PayloadOf(last.value)
            else if !fits(content) then
              decision.TooLarge? && decision.event.SnapshotPublishFailed? && result.None? && last' == last
            else
              && decision.Publish? && last' == Some(Published(|stream'|, content, decision.event.correlationId, now))
              && result.Some? && result.value.snapshot == PayloadOf(last'.value)
  {
    var ph := s.queue[0].phase;
    var decision := Decide(ph.base, ph.content, fits(ph.content), s.queue[0].call, s.serial, now);
    if decision.Unchanged? {
      assert s.stream + [] == s.stream;
    } else {
      ReplayAppend(s.stream, decision.event);
    }
    hide Replay;
  }
}

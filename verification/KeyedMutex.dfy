/** The per-key promise chain. Jobs are numbered in arrival order; a promise is named by its job. */
module KeyedMutex {
  import opened Options

  /** Keys are only compared for equality. */
  type Key(==, !new)

  class KeyedMutex {
    var tails: map<Key, nat>

    constructor ()
      ensures tails == map[]
    {
      tails := map[];
    }

    /** The synchronous start of `run`: chain behind the current tail and become the tail. */
    method Enter(key: Key, job: nat) returns (previous: Option<nat>)
      modifies this
      ensures previous == TailOf(old(tails), key)
      ensures previous.Some? <==> key in old(tails)
      ensures previous.Some? ==> previous.value == old(tails)[key]
      ensures tails == old(tails)[key := job]
    {
      previous := if key in tails then Some(tails[key]) else None;
      tails := tails[key := job];
    }

    /** The `finally` of `run`: forget the key unless somebody chained behind this job. */
    method Leave(key: Key, job: nat)
      modifies this
      ensures tails == AfterLeave(old(tails), key, job)
      ensures tails == if key in old(tails) && old(tails)[key] == job then old(tails) - {key} else old(tails)
    {
      if key in tails && tails[key] == job {
        tails := tails - {key};
      }
    }
  }

  function TailOf(tails: map<Key, nat>, key: Key): Option<nat> {
    if key in tails then Some(tails[key]) else None
  }

  function AfterLeave(tails: map<Key, nat>, key: Key, job: nat): map<Key, nat> {
    if TailOf(tails, key) == Some(job) then tails - {key} else tails
  }

  /** `settled`: the job's own promise is, by success or failure. Its tail and the caller's `finally`
      both react to that, in either order. */
  datatype Phase = Waiting | Running | Settled

  datatype Job = Job(key: Key, previous: Option<nat>, phase: Phase, tailSettled: bool, left: bool)

  datatype State = State(jobs: seq<Job>, tails: map<Key, nat>)

  datatype Step = Arrive(key: Key) | Start(job: nat) | Settle(job: nat) | SettleTail(job: nat) | Leave(job: nat)

  predicate Enabled(s: State, step: Step) {
    if step.Arrive? then true
    else
      && step.job < |s.jobs|
      && var job := s.jobs[step.job];
         match step
         case Start(_) => job.phase == Waiting
         && (job.previous.Some? ==> job.previous.value < |s.jobs| && s.jobs[job.previous.value].tailSettled)
         case Settle(_) => job.phase == Running
         case SettleTail(_) => job.phase == Settled && !job.tailSettled
         case Leave(_) => job.phase == Settled && !job.left
  }

  function Next(s: State, step: Step): State
    requires Enabled(s, step)
  {
    match step
    case Arrive(key) =>
      State(s.jobs + [Job(key, TailOf(s.tails, key), Waiting, false, false)], s.tails[key := |s.jobs|])
    case Start(j) => s.(jobs := s.jobs[j := s.jobs[j].(phase := Running)])
    case Settle(j) => s.(jobs := s.jobs[j := s.jobs[j].(phase := Settled)])
    case SettleTail(j) => s.(jobs := s.jobs[j := s.jobs[j].(tailSettled := true)])
    case Leave(j) => State(s.jobs[j := s.jobs[j].(left := true)], AfterLeave(s.tails, s.jobs[j].key, j))
  }

  ghost predicate EarlierSettled(s: State, j: nat)
    requires j <= |s.jobs|
  {
    j < |s.jobs| ==> forall i :: 0 <= i < j && s.jobs[i].key == s.jobs[j].key ==> s.jobs[i].phase == Settled
  }

  /** A job chained behind another stands right behind it among the jobs of its key. */
  ghost predicate Chained(s: State, j: nat)
    requires j < |s.jobs|
  {
    match s.jobs[j].previous
    case None => EarlierSettled(s, j)
    case Some(p) => p < j && s.jobs[p].key == s.jobs[j].key && forall i :: p < i < j ==> s.jobs[i].key != s.jobs[j].key
  }

  /** Whoever has started had all earlier jobs of its key settled before it. */
  ghost predicate Ordered(s: State) {
    && (forall j :: 0 <= j < |s.jobs| ==> Chained(s, j))
    && (forall j :: 0 <= j < |s.jobs| && s.jobs[j].phase != Waiting ==> EarlierSettled(s, j))
    && (forall j :: 0 <= j < |s.jobs| && (s.jobs[j].tailSettled || s.jobs[j].left) ==> s.jobs[j].phase == Settled)
  }

  /** A key's entry is its last job, still to be left; a key without an entry has nothing unsettled. */
  ghost predicate TailsKnown(s: State) {
    && (forall k :: k in s.tails ==>
          && s.tails[k] < |s.jobs| && s.jobs[s.tails[k]].key == k && !s.jobs[s.tails[k]].left
          && forall i :: s.tails[k] < i < |s.jobs| ==> s.jobs[i].key != k)
    && (forall j :: 0 <= j < |s.jobs| && s.jobs[j].key !in s.tails ==> s.jobs[j].phase == Settled)
  }

  ghost predicate Inv(s: State) { Ordered(s) && TailsKnown(s) }

  lemma {:induction false} ArrivedIsChained(s: State, key: Key)
    requires Inv(s)
    ensures Chained(Next(s, Arrive(key)), |s.jobs|)
  {
    assert Next(s, Arrive(key)).jobs[|s.jobs|].previous == TailOf(s.tails, key);
  }

  lemma {:induction false} OthersStayChained(s: State, key: Key, j: nat)
    requires Inv(s) && j < |s.jobs|
    ensures var s' := Next(s, Arrive(key));
            s'.jobs[j] == s.jobs[j] && Chained(s', j) && (s.jobs[j].phase != Waiting ==> EarlierSettled(s', j))
  {
    assert Chained(s, j);
  }

  lemma {:induction false} ArriveKeepsInv(s: State, key: Key)
    requires Inv(s)
    ensures Inv(Next(s, Arrive(key)))
  {
    ArrivedIsChained(s, key);
    forall j: nat | j < |s.jobs|
      ensures var s' := Next(s, Arrive(key));
              s'.jobs[j] == s.jobs[j] && Chained(s', j) && (s.jobs[j].phase != Waiting ==> EarlierSettled(s', j))
    {
      OthersStayChained(s, key, j);
    }
    hide Chained, EarlierSettled;
  }

  lemma {:induction false} StartIsInTurn(s: State, j: nat)
    requires Inv(s) && Enabled(s, Start(j))
    ensures EarlierSettled(s, j)
  {
    assert Chained(s, j);
    if p :| s.jobs[j].previous == Some(p) {
      assert s.jobs[p].phase == Settled && EarlierSettled(s, p);
    }
  }

  /** Moving one job that is in turn forward disturbs no other. */
  lemma {:induction false} AdvanceKeepsOrder(s: State, s': State, j: nat, job: Job)
    requires Ordered(s) && j < |s.jobs| && EarlierSettled(s, j)
    requires s'.jobs == s.jobs[j := job] && job.key == s.jobs[j].key && job.previous == s.jobs[j].previous
    requires job.phase != Waiting && (s.jobs[j].phase == Settled ==> job.phase == Settled)
    requires job.tailSettled || job.left ==> job.phase == Settled
    ensures Ordered(s')
  {
    forall i | 0 <= i < |s.jobs| ensures EarlierSettled(s, i) ==> EarlierSettled(s', i) {}
    forall i | 0 <= i < |s.jobs| ensures Chained(s', i) {
      assert Chained(s, i);
      assert s'.jobs[i].previous == s.jobs[i].previous && s'.jobs[i].key == s.jobs[i].key;
    }
  }

  lemma {:induction false} StepKeepsInv(s: State, step: Step)
    requires Inv(s) && Enabled(s, step)
    ensures Inv(Next(s, step))
  {
    if step.Arrive? {
      ArriveKeepsInv(s, step.key);
    } else {
      var j, s' := step.job, Next(s, step);
      if step.Start? {
        StartIsInTurn(s, j);
      } else {
        assert EarlierSettled(s, j);
      }
      AdvanceKeepsOrder(s, s', j, s'.jobs[j]);
      assert forall i :: 0 <= i < |s.jobs| ==> s'.jobs[i].key == s.jobs[i].key;
    }
  }

  /** The unsettled jobs of a key among the first n, in arrival order. */
  function Queue(s: State, key: Key, n: nat): (q: seq<nat>)
    requires n <= |s.jobs|
    ensures forall i :: 0 <= i < |q| ==> q[i] < n && s.jobs[q[i]].key == key && s.jobs[q[i]].phase != Settled
  {
    if n == 0 then []
    else Queue(s, key, n - 1) + (if s.jobs[n - 1].key == key && s.jobs[n - 1].phase != Settled then [n - 1] else [])
  }

  lemma {:induction false} QueueEmpty(s: State, key: Key, n: nat)
    requires n <= |s.jobs|
    ensures Queue(s, key, n) == [] <==> forall i :: 0 <= i < n && s.jobs[i].key == key ==> s.jobs[i].phase == Settled
  {
    if n > 0 {
      QueueEmpty(s, key, n - 1);
    }
  }

  /** The head of a queue is the one unsettled job all earlier ones of its key are settled before. */
  lemma {:induction false} HeadOf(s: State, n: nat, j: nat)
    requires j < n <= |s.jobs| && s.jobs[j].phase != Settled && EarlierSettled(s, j)
    ensures var q := Queue(s, s.jobs[j].key, n); q != [] && q[0] == j
  {
    if j == n - 1 {
      QueueEmpty(s, s.jobs[j].key, j);
    } else {
      HeadOf(s, n - 1, j);
    }
  }

  lemma {:induction false} BothGrow(s: State, s': State, key: Key, n: nat) returns (more: seq<nat>)
    requires 0 < n <= |s.jobs| && n <= |s'.jobs| && s'.jobs[n - 1] == s.jobs[n - 1]
    ensures Queue(s, key, n) == Queue(s, key, n - 1) + more && Queue(s', key, n) == Queue(s', key, n - 1) + more
  {
    more := if s.jobs[n - 1].key == key && s.jobs[n - 1].phase != Settled then [n - 1] else [];
  }

  lemma {:induction false} HeadIsTaken(q: seq<nat>, more: seq<nat>)
    requires q != []
    ensures q + more != [] && (q + more)[0] == q[0] && (q + more)[1..] == q[1..] + more
  {
  }

  lemma {:induction false} LastSettles(s: State, s': State, j: nat)
    requires j < |s.jobs| && s'.jobs == s.jobs[j := s.jobs[j].(phase := Settled)]
    requires s.jobs[j].phase == Running && EarlierSettled(s, j)
    ensures Queue(s, s.jobs[j].key, j + 1) == [j] && Queue(s', s.jobs[j].key, j + 1) == []
  {
    QueueEmpty(s, s.jobs[j].key, j);
    QueueUnaffected(s, s', s.jobs[j].key, j);
  }

  lemma {:induction false} QueueAfterSettle(s: State, s': State, n: nat, j: nat)
    requires j < n <= |s.jobs| && s'.jobs == s.jobs[j := s.jobs[j].(phase := Settled)]
    requires s.jobs[j].phase == Running && EarlierSettled(s, j)
    ensures var q := Queue(s, s.jobs[j].key, n); q != [] && q[0] == j && Queue(s', s.jobs[j].key, n) == q[1..]
  {
    hide EarlierSettled, Queue;
    if j == n - 1 {
      LastSettles(s, s', j);
    } else {
      var key := s.jobs[j].key;
      QueueAfterSettle(s, s', n - 1, j);
      var more := BothGrow(s, s', key, n);
      HeadIsTaken(Queue(s, key, n - 1), more);
    }
  }

  lemma {:induction false} QueueUnaffected(s: State, s': State, key: Key, n: nat)
    requires n <= |s.jobs| && n <= |s'.jobs|
    requires forall i :: 0 <= i < n ==> s.jobs[i].key == s'.jobs[i].key
    requires forall i :: 0 <= i < n && s.jobs[i].key == key ==>
               (s.jobs[i].phase == Settled <==> s'.jobs[i].phase == Settled)
    ensures Queue(s', key, n) == Queue(s, key, n)
  {
    if n > 0 {
      QueueUnaffected(s, s', key, n - 1);
    }
  }

  function All(s: State, key: Key): seq<nat> { Queue(s, key, |s.jobs|) }

  /** Every step of the chain is a step of a first-in-first-out queue per key: arrivals join at the end,
      only the head ever runs, and settling takes the head off. Nothing else moves any queue. */
  lemma {:induction false} ChainIsFifo(s: State, step: Step, key: Key)
    requires Inv(s) && Enabled(s, step)
    ensures step.Arrive? ==> All(Next(s, step), key) == All(s, key) + (if step.key == key then [|s.jobs|] else [])
    ensures step.Start? && s.jobs[step.job].key == key ==> All(s, key) != [] && All(s, key)[0] == step.job
    ensures step.Settle? && s.jobs[step.job].key == key ==>
              All(s, key) != [] && All(s, key)[0] == step.job && All(Next(s, step), key) == All(s, key)[1..]
    ensures !step.Arrive? && !(step.Settle? && s.jobs[step.job].key == key) ==> All(Next(s, step), key) == All(s, key)
  {
    var s' := Next(s, step);
    if step.Settle? && s.jobs[step.job].key == key {
      assert EarlierSettled(s, step.job);
      QueueAfterSettle(s, s', |s.jobs|, step.job);
    } else {
      QueueUnaffected(s, s', key, |s.jobs|);
    }
    if step.Start? {
      StartIsInTurn(s, step.job);
      HeadOf(s, |s.jobs|, step.job);
    }
  }

  /** A queued head is never stuck: it runs, may start, or waits only for a tail that is about to settle. */
  lemma {:induction false} HeadIsNeverStuck(s: State, key: Key)
    requires Inv(s) && All(s, key) != []
    ensures var head := All(s, key)[0];
            || Enabled(s, Settle(head))
            || Enabled(s, Start(head))
            || (s.jobs[head].previous.Some? && Enabled(s, SettleTail(s.jobs[head].previous.value)))
  {
    var head := All(s, key)[0];
    assert Chained(s, head);
    if p :| s.jobs[head].previous == Some(p) && s.jobs[p].phase != Settled {
      HeadIsFirst(s, key, |s.jobs|, p);
    }
  }

  lemma {:induction false} HeadIsFirst(s: State, key: Key, n: nat, p: nat)
    requires n <= |s.jobs| && p < n && s.jobs[p].key == key && s.jobs[p].phase != Settled
    ensures Queue(s, key, n) != [] && Queue(s, key, n)[0] <= p
  {
    if p < n - 1 {
      HeadIsFirst(s, key, n - 1, p);
    } else if Queue(s, key, p) != [] {
      assert Queue(s, key, p)[0] < p;
    }
  }

  ghost predicate IsRun(run: seq<State>, steps: seq<Step>) {
    && |run| == |steps| + 1
    && run[0] == State([], map[])
    && forall i :: 0 <= i < |steps| ==> Enabled(run[i], steps[i]) && run[i + 1] == Next(run[i], steps[i])
  }

  /** In every run: two jobs of a key never run at once, a later one starts only when all earlier ones
      have settled, and a key whose callers have all returned has no entry. */
  lemma {:induction false} MutexIsCorrect(run: seq<State>, steps: seq<Step>)
    requires IsRun(run, steps)
    ensures var s := run[|steps|];
            && Inv(s)
            && (forall i, j :: 0 <= i < j < |s.jobs| && s.jobs[i].key == s.jobs[j].key && s.jobs[j].phase != Waiting ==>
                  s.jobs[i].phase == Settled)
            && (forall k :: k in s.tails ==> exists j :: 0 <= j < |s.jobs| && s.jobs[j].key == k && !s.jobs[j].left)
    decreases |steps|
  {
    if |steps| > 0 {
      var k := |steps| - 1;
      MutexIsCorrect(run[..k + 1], steps[..k]);
      StepKeepsInv(run[k], steps[k]);
    }
    var s := run[|steps|];
    forall i, j | 0 <= i < j < |s.jobs| && s.jobs[i].key == s.jobs[j].key && s.jobs[j].phase != Waiting
      ensures s.jobs[i].phase == Settled
    {
      assert EarlierSettled(s, j);
    }
  }
}

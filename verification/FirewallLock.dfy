/** Firewall updates under a lock that expires. */
module FirewallLock {
  import opened Options
  import opened Firewall

  const TTL_MS := 10000
  const MAX_WAIT_MS := 5000
  const RETRY_DELAY_MS := 100

  type Token(==, !new)

  datatype Lock = Lock(token: Token, expiresAt: int)

  predicate Held(lock: Option<Lock>, now: int) {
    lock.Some? && now < lock.value.expiresAt
  }

  /** The release script: it deletes the key only if it still holds the caller's token. */
  function Released(lock: Option<Lock>, now: int, token: Token): Option<Lock> {
    if Held(lock, now) && lock.value.token == token then None else lock
  }

  // ---- The calls as they run

  class LockStore {
    var now: int
    var lock: Option<Lock>

    /** SET key token PX ttl NX. */
    method SetIfFree(token: Token) returns (ok: bool)
      modifies `lock
      ensures ok <==> !Held(old(lock), now)
      ensures ok <==> old(lock).None? || old(lock).value.expiresAt <= now
      ensures lock == if ok then Some(Lock(token, now + TTL_MS)) else old(lock)
    {
      if Held(lock, now) {
        return false;
      }
      lock := Some(Lock(token, now + TTL_MS));
      ok := true;
    }

    method Release(token: Token)
      modifies `lock
      ensures lock == Released(old(lock), now, token)
      ensures lock == if old(lock).Some? && now < old(lock).value.expiresAt && old(lock).value.token == token then None
                      else old(lock)
    {
      if Held(lock, now) && lock.value.token == token {
        lock := None;
      }
    }

    /** Meanwhile anybody may take, release or lose the lock. */
    method Sleep(ms: int)
      modifies this
      ensures now >= old(now) + ms
    {
      var later: int := *;
      now := now + ms + (if later > 0 then later else 0);
      lock := *;
    }

    /** Time passes in a call of the API. Nobody takes a lock that has not expired, nor does anybody return it
        for the caller; one that has expired may be gone, or somebody else's. */
    method Elapse(token: Token)
      modifies this
      ensures now >= old(now)
      ensures Held(old(lock), now) ==> lock == old(lock)
      ensures lock == old(lock) || lock.None? || lock.value.token != token
    {
      var later: int := *;
      now := now + (if later > 0 then later else 0);
      var other: Option<Lock> := *;
      if !Held(lock, now) && !(other.Some? && other.value.token == token) {
        lock := other;
      }
    }
  }

  /** Retries until the lock is free or the wait is over. */
  method AcquireFirewallLock(store: LockStore, token: Token) returns (ok: bool)
    modifies store
    ensures ok ==> store.lock == Some(Lock(token, store.now + TTL_MS))
    ensures !ok ==> Held(store.lock, store.now) && store.now >= old(store.now) + MAX_WAIT_MS
  {
    var deadline := store.now + MAX_WAIT_MS;
    while true
      invariant deadline == old(store.now) + MAX_WAIT_MS
      decreases deadline + RETRY_DELAY_MS - store.now
    {
      ok := store.SetIfFree(token);
      if ok {
        return;
      }
      if store.now >= deadline {
        return false;
      }
      store.Sleep(RETRY_DELAY_MS);
    }
  }

  class FirewallApi {
    var rules: seq<Rule>

    method Get() returns (r: Option<seq<Rule>>)
      ensures r.Some? ==> r.value == rules
    {
      var fails: bool := *;
      r := if fails then None else Some(rules);
    }

    /** Replaces the whole rule array, or fails and changes nothing. */
    method Set(next: seq<Rule>) returns (ok: bool)
      modifies this
      ensures rules == if ok then next else old(rules)
    {
      ok := *;
      if ok {
        rules := next;
      }
    }
  }

  datatype Error = NotAcquired | ApiFailed | SelectorNoMatch | SelectorAmbiguous(count: nat)

  /** The locked read-modify-write. Whatever happens after the lock was `taken`, it is given back, if it has not
      expired by then; and what has meanwhile become somebody else's is left alone. */
  method ApplyFirewallRuleUpdate(store: LockStore, api: FirewallApi, token: Token, c: Change)
    returns (error: Option<Error>, ghost taken: int)
    modifies store, api
    ensures error.None? ==> Updated(old(api.rules), c) == Some(api.rules)
    ensures error.Some? ==> api.rules == old(api.rules)
    ensures error == Some(SelectorNoMatch) ==> MatchFirewallRule(api.rules, c.selector) == NoMatch
    ensures error.Some? && error.value.SelectorAmbiguous? ==>
              MatchFirewallRule(api.rules, c.selector) == Ambiguous(error.value.count)
    ensures error != Some(NotAcquired) ==> !(Held(store.lock, store.now) && store.lock.value.token == token)
    ensures error != Some(NotAcquired) && store.now < taken + TTL_MS ==> store.lock.None?
  {
    var ok := AcquireFirewallLock(store, token);
    taken := store.now;
    if !ok {
      return Some(NotAcquired), taken;
    }
    var rules := api.Get();
    store.Elapse(token);
    if rules.None? {
      error := Some(ApiFailed);
    } else {
      var matched := MatchFirewallRule(rules.value, c.selector);
      if matched.NoMatch? {
        error := Some(SelectorNoMatch);
      } else if matched.Ambiguous? {
        error := Some(SelectorAmbiguous(matched.count));
      } else {
        var next := NextRules(rules.value, c);
        var written := api.Set(next.value);
        store.Elapse(token);
        error := if written then None else Some(ApiFailed);
      }
    }
    store.Release(token);
  }

  // ---- Any number of concurrent calls

  datatype Phase =
    | Waiting(deadline: int, notBefore: int)
    | Holding(until: int)
    | Fetched(until: int, rules: seq<Rule>)
    | Releasing(until: int, success: bool)
    | Finished(success: bool)

  datatype Client = Client(change: Change, phase: Phase)

  /** `acquired` lists the calls in the order in which they got the lock, `successful` those that wrote. */
  datatype World = World(
    now: int,
    lock: Option<Lock>,
    rules: seq<Rule>,
    clients: map<Token, Client>,
    acquired: seq<Token>,
    successful: set<Token>)

  datatype Step =
    | Start(token: Token, change: Change)
    | Pass(ms: nat)
    | Acquire(token: Token)
    | Retry(token: Token)
    | GiveUp(token: Token)
    | Fetch(token: Token)
    | Write(token: Token)
    /** A failing call of the API, or a selector that does not resolve. */
    | Break(token: Token)
    | Release(token: Token)

  predicate InSection(p: Phase) {
    p.Holding? || p.Fetched? || p.Releasing?
  }

  predicate Enabled(w: World, step: Step) {
    if step.Start? then step.token !in w.clients
    else if step.Pass? then true
    else
      && step.token in w.clients
      && var p := w.clients[step.token].phase;
         match step
         case Acquire(_) => p.Waiting? && w.now >= p.notBefore && !Held(w.lock, w.now)
         case Retry(_) => p.Waiting? && w.now >= p.notBefore && Held(w.lock, w.now) && w.now < p.deadline
         case GiveUp(_) => p.Waiting? && w.now >= p.notBefore && Held(w.lock, w.now) && w.now >= p.deadline
         case Fetch(_) => p.Holding?
         case Write(t) => p.Fetched? && Updated(p.rules, w.clients[t].change).Some?
         case Break(_) => p.Holding? || p.Fetched?
         case Release(_) => p.Releasing?
  }

  function At(w: World, token: Token, phase: Phase): World
    requires token in w.clients
  {
    w.(clients := w.clients[token := w.clients[token].(phase := phase)])
  }

  function Next(w: World, step: Step): World
    requires Enabled(w, step)
  {
    match step
    case Start(t, c) => w.(clients := w.clients[t := Client(c, Waiting(w.now + MAX_WAIT_MS, w.now))])
    case Pass(ms) => w.(now := w.now + ms)
    case Acquire(t) =>
      At(w, t, Holding(w.now + TTL_MS)).(lock := Some(Lock(t, w.now + TTL_MS)), acquired := w.acquired + [t])
    case Retry(t) => At(w, t, w.clients[t].phase.(notBefore := w.now + RETRY_DELAY_MS))
    case GiveUp(t) => At(w, t, Finished(false))
    case Fetch(t) => At(w, t, Fetched(w.clients[t].phase.until, w.rules))
    case Write(t) =>
      At(w, t, Releasing(w.clients[t].phase.until, true)).(
        rules := Updated(w.clients[t].phase.rules, w.clients[t].change).value, successful := w.successful + {t})
    case Break(t) => At(w, t, Releasing(w.clients[t].phase.until, false))
    case Release(t) => At(w, t, Finished(w.clients[t].phase.success)).(lock := Released(w.lock, w.now, t))
  }

  ghost predicate IsRun(run: seq<World>, steps: seq<Step>) {
    && |run| == |steps| + 1
    && run[0].lock.None? && run[0].clients == map[] && run[0].acquired == [] && run[0].successful == {}
    && (forall i :: 0 <= i < |steps| ==> Enabled(run[i], steps[i]) && run[i + 1] == Next(run[i], steps[i]))
  }

  lemma {:induction false} Extend(run: seq<World>, steps: seq<Step>, step: Step)
    returns (run': seq<World>, steps': seq<Step>)
    requires IsRun(run, steps) && Enabled(run[|steps|], step)
    ensures run' == run + [Next(run[|steps|], step)] && steps' == steps + [step]
    ensures IsRun(run', steps') && run'[0] == run[0] && run'[|steps'|] == Next(run[|steps|], step)
  {
    run', steps' := run + [Next(run[|steps|], step)], steps + [step];
    forall i | 0 <= i < |steps'| ensures Enabled(run'[i], steps'[i]) && run'[i + 1] == Next(run'[i], steps'[i]) {
      if i < |steps| {
        assert run'[i] == run[i] && run'[i + 1] == run[i + 1] && steps'[i] == steps[i];
      }
    }
  }

  /** The calls that wrote, in the order in which they did. */
  function WriteOrder(steps: seq<Step>): seq<Token> {
    if steps == [] then [] else
      var last := steps[|steps| - 1];
      WriteOrder(steps[..|steps| - 1]) + (if last.Write? then [last.token] else [])
  }

  /** The rules after the given calls, one after the other, each on what the one before left. */
  function Sequentially(rules: seq<Rule>, clients: map<Token, Client>, order: seq<Token>): Option<seq<Rule>> {
    if order == [] then Some(rules) else
      var before := Sequentially(rules, clients, order[..|order| - 1]);
      if before.None? || order[|order| - 1] !in clients then None
      else Updated(before.value, clients[order[|order| - 1]].change)
  }

  /** The rules are what the calls that wrote so far produce one after the other. */
  ghost predicate Serial(run: seq<World>, steps: seq<Step>, k: nat)
    requires k <= |steps| < |run|
  {
    Sequentially(run[0].rules, run[k].clients, WriteOrder(steps[..k])) == Some(run[k].rules)
  }

  /** Between the fetch of a call and its write there is another write. */
  ghost predicate BreaksIn(steps: seq<Step>, i: nat, m: nat, j: nat) {
    i < m < j < |steps| && steps[i].Fetch? && steps[m].Write? && steps[j] == Write(steps[i].token)
  }

  ghost predicate Unbroken(steps: seq<Step>) {
    forall i: nat, m: nat, j: nat :: !BreaksIn(steps, i, m, j)
  }

  // ---- Without any assumption about time

  function Rank(p: Phase): nat {
    match p
    case Waiting(_, _) => 0
    case Holding(_) => 1
    case Fetched(_, _) => 2
    case Releasing(_, _) => 3
    case Finished(_) => 4
  }

  lemma {:induction false} PhaseStep(w: World, step: Step, t: Token)
    requires Enabled(w, step) && t in w.clients
    ensures t in Next(w, step).clients
    ensures var c, c' := w.clients[t], Next(w, step).clients[t];
            && c'.change == c.change && Rank(c.phase) <= Rank(c'.phase)
            && (c.phase.Fetched? && c'.phase.Fetched? ==> c'.phase == c.phase)
  {
  }

  /** A call goes through its phases once, and what it has fetched stays what it is. */
  lemma {:induction false} PhasesAdvance(run: seq<World>, steps: seq<Step>, i: nat, j: nat, t: Token)
    requires IsRun(run, steps) && i <= j <= |steps| && t in run[i].clients
    ensures t in run[j].clients
    ensures var c, c' := run[i].clients[t], run[j].clients[t];
            && c'.change == c.change && Rank(c.phase) <= Rank(c'.phase)
            && (c.phase.Fetched? && c'.phase.Fetched? ==> c'.phase == c.phase)
    decreases j
  {
    hide Next;
    if i < j {
      PhasesAdvance(run, steps, i, j - 1, t);
      PhaseStep(run[j - 1], steps[j - 1], t);
    }
  }

  lemma {:induction false} FetchedBefore(w: World, step: Step, t: Token)
    requires Enabled(w, step) && t in Next(w, step).clients && Next(w, step).clients[t].phase.Fetched?
    requires step != Fetch(t)
    ensures t in w.clients && w.clients[t].phase.Fetched?
  {
  }

  /** Who has fetched did so at some step. */
  lemma {:induction false} FetchOf(run: seq<World>, steps: seq<Step>, t: Token, j: nat) returns (i: nat)
    requires IsRun(run, steps) && j <= |steps| && t in run[j].clients && run[j].clients[t].phase.Fetched?
    ensures i < j && steps[i] == Fetch(t)
    decreases j
  {
    if steps[j - 1] == Fetch(t) {
      i := j - 1;
    } else {
      FetchedBefore(run[j - 1], steps[j - 1], t);
      i := FetchOf(run, steps, t, j - 1);
    }
  }

  lemma {:induction false} NoWriteNoChange(run: seq<World>, steps: seq<Step>, i: nat, j: nat)
    requires IsRun(run, steps) && i <= j <= |steps|
    requires forall m :: i <= m < j ==> !steps[m].Write?
    ensures run[j].rules == run[i].rules
    decreases j
  {
    if i < j {
      NoWriteNoChange(run, steps, i, j - 1);
    }
  }

  lemma {:induction false} UpdateKeepsOrAdds(rules: seq<Rule>, c: Change, x: nat, v: string)
    requires Updated(rules, c).Some? && x < |rules| && v != ""
    ensures |Updated(rules, c).value| == |rules|
    ensures v in ListOf(Updated(rules, c).value[x]) ==> v in ListOf(rules[x]) || v in c.add
  {
    RewrittenHas(ListOf(rules[MatchFirewallRule(rules, c.selector).index]), c.remove, c.add, v);
  }

  /** Whatever the timing: a write leaves the update of what its call had fetched. Of anything written in
      between nothing is in it: an entry there now was there at the fetch, or is one this call adds. */
  lemma {:induction false} WriteRestsOnFetch(run: seq<World>, steps: seq<Step>, i: nat, j: nat)
    requires IsRun(run, steps) && i < j < |steps| && steps[i].Fetch? && steps[j] == Write(steps[i].token)
    ensures steps[i].token in run[j].clients && |run[j + 1].rules| == |run[i].rules|
    ensures var c := run[j].clients[steps[i].token].change;
            && Updated(run[i].rules, c) == Some(run[j + 1].rules)
            && forall x, v :: 0 <= x < |run[i].rules| && v != "" && v in ListOf(run[j + 1].rules[x]) ==>
                 v in ListOf(run[i].rules[x]) || v in c.add
  {
    var t := steps[i].token;
    PhasesAdvance(run, steps, i + 1, j, t);
    var c := run[j].clients[t].change;
    assert Updated(run[i].rules, c) == Some(run[j + 1].rules);
    forall x, v | 0 <= x < |run[i].rules| && v != "" && v in ListOf(run[j + 1].rules[x])
      ensures v in ListOf(run[i].rules[x]) || v in c.add
    {
      UpdateKeepsOrAdds(run[i].rules, c, x, v);
    }
    UpdatedLength(run[i].rules, c);
  }

  lemma {:induction false} UpdatedLength(rules: seq<Rule>, c: Change)
    ensures Updated(rules, c).Some? ==> |Updated(rules, c).value| == |rules|
  {
  }

  lemma {:induction false} SameSequence(rules: seq<Rule>, a: map<Token, Client>, b: map<Token, Client>,
          order: seq<Token>)
    requires forall t :: t in order ==> t in a && t in b && a[t].change == b[t].change
    ensures Sequentially(rules, a, order) == Sequentially(rules, b, order)
  {
    if order != [] {
      var rest, t := order[..|order| - 1], order[|order| - 1];
      assert order == rest + [t];
      SameSequence(rules, a, b, rest);
    }
  }

  lemma {:induction false} OneMore(rules: seq<Rule>, clients: map<Token, Client>, order: seq<Token>, t: Token)
    requires Sequentially(rules, clients, order).Some? && t in clients
    ensures Sequentially(rules, clients, order + [t]) ==
              Updated(Sequentially(rules, clients, order).value, clients[t].change)
  {
    assert (order + [t])[..|order|] == order;
  }

  lemma {:induction false} WriteOrderGrows(steps: seq<Step>, k: nat)
    requires k < |steps|
    ensures WriteOrder(steps[..k + 1]) == WriteOrder(steps[..k]) + (if steps[k].Write? then [steps[k].token] else [])
  {
    assert steps[..k + 1][..k] == steps[..k];
  }

  /** The calls that wrote are there, and past their write. */
  lemma {:induction false} WritersAreDone(run: seq<World>, steps: seq<Step>, k: nat)
    requires IsRun(run, steps) && k <= |steps|
    ensures forall t :: t in WriteOrder(steps[..k]) ==> t in run[k].clients && Rank(run[k].clients[t].phase) >= 3
    decreases k
  {
    if k > 0 {
      WritersAreDone(run, steps, k - 1);
      WriteOrderGrows(steps, k - 1);
      forall t | t in WriteOrder(steps[..k]) ensures t in run[k].clients && Rank(run[k].clients[t].phase) >= 3 {
        if t in WriteOrder(steps[..k - 1]) {
          PhaseStep(run[k - 1], steps[k - 1], t);
        }
      }
    }
  }

  lemma {:induction false} EarlierWritesStay(run: seq<World>, steps: seq<Step>, k: nat)
    requires IsRun(run, steps) && k < |steps|
    ensures Sequentially(run[0].rules, run[k + 1].clients, WriteOrder(steps[..k])) ==
            Sequentially(run[0].rules, run[k].clients, WriteOrder(steps[..k]))
  {
    WritersAreDone(run, steps, k);
    forall t | t in WriteOrder(steps[..k])
      ensures t in run[k].clients && t in run[k + 1].clients && run[k].clients[t].change == run[k + 1].clients[t].change
    {
      PhaseStep(run[k], steps[k], t);
    }
    SameSequence(run[0].rules, run[k].clients, run[k + 1].clients, WriteOrder(steps[..k]));
  }

  /** A write whose call fetched what is still there continues the sequence. */
  lemma {:induction false} SerialStep(run: seq<World>, steps: seq<Step>, k: nat)
    requires IsRun(run, steps) && k < |steps| && Serial(run, steps, k)
    requires steps[k].Write? ==> run[k].clients[steps[k].token].phase.rules == run[k].rules
    ensures Serial(run, steps, k + 1)
  {
    EarlierWritesStay(run, steps, k);
    WriteOrderGrows(steps, k);
    if steps[k].Write? {
      PhaseStep(run[k], steps[k], steps[k].token);
      OneMore(run[0].rules, run[k + 1].clients, WriteOrder(steps[..k]), steps[k].token);
    } else {
      assert WriteOrder(steps[..k]) + [] == WriteOrder(steps[..k]);
    }
  }

  lemma {:induction false} FetchedIsCurrent(run: seq<World>, steps: seq<Step>, k: nat)
    requires IsRun(run, steps) && k < |steps| && Unbroken(steps[..k + 1]) && steps[k].Write?
    ensures run[k].clients[steps[k].token].phase.rules == run[k].rules
  {
    var t := steps[k].token;
    var i := FetchOf(run, steps, t, k);
    forall m | i <= m < k ensures !steps[m].Write? {
      assert !BreaksIn(steps[..k + 1], i, m, k);
    }
    NoWriteNoChange(run, steps, i, k);
    PhasesAdvance(run, steps, i + 1, k, t);
  }

  /** If no write falls between a call's fetch and its own write, the rules are always what the calls that
      wrote produce one after the other. */
  lemma {:induction false} UnbrokenIsSerial(run: seq<World>, steps: seq<Step>, k: nat)
    requires IsRun(run, steps) && k <= |steps| && Unbroken(steps[..k])
    ensures Serial(run, steps, k)
    decreases k
  {
    hide BreaksIn, Enabled, Next;
    if k > 0 {
      UnbrokenBefore(steps, k - 1, k);
      UnbrokenIsSerial(run, steps, k - 1);
      if steps[k - 1].Write? {
        FetchedIsCurrent(run, steps, k - 1);
      }
      SerialStep(run, steps, k - 1);
    }
  }

  lemma {:induction false} UnbrokenBefore(steps: seq<Step>, k: nat, n: nat)
    requires k <= n <= |steps| && Unbroken(steps[..n])
    ensures Unbroken(steps[..k])
  {
    forall i: nat, m: nat, j: nat ensures !BreaksIn(steps[..k], i, m, j) {
      assert !BreaksIn(steps[..n], i, m, j);
    }
  }

  // ---- And exactly then

  /** The same steps of the same calls, asking for other changes of other rules. */
  ghost predicate SameSchedule(steps: seq<Step>, steps': seq<Step>) {
    && |steps| == |steps'|
    && forall i :: 0 <= i < |steps| ==> SameMove(steps[i], steps'[i])
  }

  predicate SameMove(step: Step, step': Step) {
    if step.Start? then step'.Start? && step'.token == step.token else step' == step
  }

  const ANY := Selector("in", "tcp", None, "")

  /** One rule, with or without a mark in its list. */
  function Marks(marked: bool): seq<string> {
    if marked then ["mark"] else []
  }

  function Sheet(marked: bool): seq<Rule> {
    [Rule("in", "tcp", None, None, Some(Marks(marked)), None)]
  }

  function Marking(marks: bool): Change {
    Change(ANY, [], Marks(marks))
  }

  lemma {:induction false} SheetRewritten(marked: bool, marks: bool)
    ensures Rewritten(ListOf(Sheet(marked)[0]), Marking(marks).remove, Marking(marks).add) ==
              ListOf(Sheet(marked || marks)[0])
  {
    NothingGone(Marks(marked), []);
    MarkPushed(marked, marks);
    hide RemoveAll, ElementsOf, Given, PushAll, Marks;
  }

  lemma {:induction false} MarkPushed(marked: bool, marks: bool)
    ensures PushAll(Marks(marked), Given(Marks(marks))) == Marks(marked || marks)
  {
    if marks {
      assert ["mark"][..0] == [] && [] + ["mark"] == ["mark"];
      assert Given(["mark"]) == ["mark"];
      assert PushAll(Marks(marked), ["mark"]) == Push(Marks(marked), "mark");
    }
  }

  lemma {:induction false} MarkStays(marked: bool, marks: bool)
    ensures Updated(Sheet(marked), Marking(marks)) == Some(Sheet(marked || marks))
  {
    var rule := Sheet(marked)[0];
    assert Selects(ANY, rule);
    ResolvedIsUnique(Sheet(marked), ANY, 0);
    SheetRewritten(marked, marks);
    assert Sheet(marked)[0 := WithList(rule, ListOf(Sheet(marked || marks)[0]))] == Sheet(marked || marks);
  }

  lemma {:induction false} NothingGone(list: seq<string>, none: seq<string>)
    requires none == []
    ensures RemoveAll(list, ElementsOf(Given(none))) == list
  {
    if list != [] {
      NothingGone(list[..|list| - 1], none);
      assert list == list[..|list| - 1] + [list[|list| - 1]];
    }
  }

  predicate SamePhase(p: Phase, p': Phase) {
    match p
    case Fetched(until, _) => p'.Fetched? && p'.until == until && exists marked :: p'.rules == Sheet(marked)
    case _ => p' == p
  }

  /** The world as it would be if only `u` left a mark. */
  ghost predicate Shadows(u: Token, w: World, w': World) {
    && w'.now == w.now && w'.lock == w.lock && w'.acquired == w.acquired && w'.successful == w.successful
    && (exists marked :: w'.rules == Sheet(marked))
    && w'.clients.Keys == w.clients.Keys
    && (forall t :: t in w.clients ==> ShadowsClient(t == u, w.clients[t], w'.clients[t]))
  }

  ghost predicate ShadowsClient(marks: bool, c: Client, c': Client) {
    c'.change == Marking(marks) && SamePhase(c.phase, c'.phase)
  }

  function Shadow(u: Token, step: Step): Step {
    if step.Start? then Start(step.token, Marking(step.token == u)) else step
  }

  lemma {:induction false} ShadowEnabled(u: Token, w: World, w': World, step: Step)
    requires Shadows(u, w, w') && Enabled(w, step)
    ensures Enabled(w', Shadow(u, step))
  {
    if !step.Start? && !step.Pass? {
      assert ShadowsClient(step.token == u, w.clients[step.token], w'.clients[step.token]);
      if step.Write? {
        var marked :| w'.clients[step.token].phase.rules == Sheet(marked);
        MarkStays(marked, step.token == u);
      }
    }
  }

  lemma {:induction false} ShadowMoves(u: Token, w: World, w': World, step: Step)
    requires Shadows(u, w, w') && Enabled(w, step) && Enabled(w', Shadow(u, step)) && !step.Start? && !step.Pass?
    ensures ShadowsClient(step.token == u, Next(w, step).clients[step.token],
                          Next(w', Shadow(u, step)).clients[step.token])
    ensures exists marked :: Next(w', Shadow(u, step)).rules == Sheet(marked)
  {
    var t := step.token;
    assert ShadowsClient(t == u, w.clients[t], w'.clients[t]);
    if step.Write? {
      var marked :| w'.clients[t].phase.rules == Sheet(marked);
      MarkStays(marked, t == u);
    }
  }

  lemma {:induction false} OthersStay(w: World, step: Step, t: Token)
    requires Enabled(w, step) && t in w.clients && (step.Pass? || t != step.token)
    ensures t in Next(w, step).clients && Next(w, step).clients[t] == w.clients[t]
  {
  }

  lemma {:induction false} ShadowClients(u: Token, w: World, w': World, step: Step, t: Token)
    requires Shadows(u, w, w') && Enabled(w, step) && Enabled(w', Shadow(u, step)) && t in Next(w, step).clients
    ensures t in Next(w', Shadow(u, step)).clients
    ensures ShadowsClient(t == u, Next(w, step).clients[t], Next(w', Shadow(u, step)).clients[t])
  {
    if t in w.clients {
      assert ShadowsClient(t == u, w.clients[t], w'.clients[t]);
      if step.Pass? || t != step.token {
        OthersStay(w, step, t);
        OthersStay(w', Shadow(u, step), t);
      } else {
        ShadowMoves(u, w, w', step);
      }
    }
  }

  lemma {:induction false} ShadowRest(u: Token, w: World, w': World, step: Step)
    requires Shadows(u, w, w') && Enabled(w, step) && Enabled(w', Shadow(u, step))
    ensures var v, v' := Next(w, step), Next(w', Shadow(u, step));
            && v'.now == v.now && v'.lock == v.lock && v'.acquired == v.acquired && v'.successful == v.successful
            && v'.clients.Keys == v.clients.Keys && (!step.Write? ==> v'.rules == w'.rules)
  {
    if !step.Start? && !step.Pass? {
      assert ShadowsClient(step.token == u, w.clients[step.token], w'.clients[step.token]);
    }
  }

  lemma {:induction false} ShadowFollows(u: Token, w: World, w': World, step: Step)
    requires Shadows(u, w, w') && Enabled(w, step) && Enabled(w', Shadow(u, step))
    ensures Shadows(u, Next(w, step), Next(w', Shadow(u, step)))
  {
    hide Next, Enabled, ShadowsClient, Sheet;
    ShadowRest(u, w, w', step);
    if step.Write? {
      ShadowMoves(u, w, w', step);
    }
    forall t | t in Next(w, step).clients
      ensures ShadowsClient(t == u, Next(w, step).clients[t], Next(w', Shadow(u, step)).clients[t])
    {
      ShadowClients(u, w, w', step, t);
    }
  }

  ghost predicate IsShadow(u: Token, run: seq<World>, steps: seq<Step>, run': seq<World>, steps': seq<Step>, k: nat)
    requires k < |run|
  {
    && IsRun(run', steps') && |steps'| == k <= |steps|
    && (forall i :: 0 <= i < k ==> steps'[i] == Shadow(u, steps[i]))
    && (forall i :: 0 <= i <= k ==> Shadows(u, run[i], run'[i]))
    && run'[0].rules == Sheet(false)
  }

  lemma {:induction false} ShadowRun(u: Token, run: seq<World>, steps: seq<Step>, k: nat)
    returns (run': seq<World>, steps': seq<Step>)
    requires IsRun(run, steps) && k <= |steps|
    ensures IsShadow(u, run, steps, run', steps', k)
    decreases k
  {
    if k == 0 {
      run', steps' := [run[0].(rules := Sheet(false))], [];
    } else {
      var before, moves := ShadowRun(u, run, steps, k - 1);
      assert Shadows(u, run[k - 1], before[k - 1]);
      ShadowEnabled(u, run[k - 1], before[k - 1], steps[k - 1]);
      ShadowFollows(u, run[k - 1], before[k - 1], steps[k - 1]);
      run', steps' := Extend(before, moves, Shadow(u, steps[k - 1]));
    }
  }

  /** Neither the rules nor what anybody has fetched of them is marked. */
  ghost predicate Unmarked(w: World) {
    && w.rules == Sheet(false)
    && forall t :: t in w.clients && w.clients[t].phase.Fetched? ==> w.clients[t].phase.rules == Sheet(false)
  }

  lemma {:induction false} OthersLeaveNoMark(u: Token, w: World, w': World, step: Step)
    requires Shadows(u, w, w') && Unmarked(w') && Enabled(w', step) && step != Write(u)
    ensures step.Write? ==> Next(w', step).rules == Sheet(false)
  {
    if step.Write? {
      assert ShadowsClient(step.token == u, w.clients[step.token], w'.clients[step.token]);
      MarkStays(false, false);
    }
  }

  lemma {:induction false} StaysUnmarked(w: World, step: Step)
    requires Unmarked(w) && Enabled(w, step) && (step.Write? ==> Next(w, step).rules == Sheet(false))
    ensures Unmarked(Next(w, step))
  {
    hide Sheet;
  }

  lemma {:induction false} NoMarkYet(u: Token, run: seq<World>, steps: seq<Step>, run': seq<World>, steps': seq<Step>,
          n: nat, k: nat)
    requires n < |run| && IsShadow(u, run, steps, run', steps', n) && k <= n
    requires forall i :: 0 <= i < k ==> steps'[i] != Write(u)
    ensures Unmarked(run'[k])
    decreases k
  {
    if k > 0 {
      NoMarkYet(u, run, steps, run', steps', n, k - 1);
      assert Shadows(u, run[k - 1], run'[k - 1]);
      OthersLeaveNoMark(u, run[k - 1], run'[k - 1], steps'[k - 1]);
      StaysUnmarked(run'[k - 1], steps'[k - 1]);
    }
  }

  lemma {:induction false} MarkIsKept(u: Token, clients: map<Token, Client>, order: seq<Token>)
    requires forall t :: t in order ==> t in clients && clients[t].change == Marking(t == u)
    ensures Sequentially(Sheet(false), clients, order) == Some(Sheet(u in order))
  {
    if order != [] {
      var rest, t := order[..|order| - 1], order[|order| - 1];
      assert order == rest + [t];
      MarkIsKept(u, clients, rest);
      MarkStays(u in rest, t == u);
    }
  }

  lemma {:induction false} WroteIsIn(steps: seq<Step>, m: nat, k: nat)
    requires m < k <= |steps| && steps[m].Write?
    ensures steps[m].token in WriteOrder(steps[..k])
    decreases k
  {
    WriteOrderGrows(steps, k - 1);
    if m < k - 1 {
      WroteIsIn(steps, m, k - 1);
    }
  }

  lemma {:induction false} ShadowChange(u: Token, run: seq<World>, steps: seq<Step>, run': seq<World>,
          steps': seq<Step>, n: nat, k: nat, t: Token)
    requires n < |run| && IsShadow(u, run, steps, run', steps', n) && k <= n && t in run'[k].clients
    ensures run'[k].clients[t].change == Marking(t == u)
  {
    assert Shadows(u, run[k], run'[k]);
    assert ShadowsClient(t == u, run[k].clients[t], run'[k].clients[t]);
  }

  lemma {:induction false} MarkBelongs(u: Token, run: seq<World>, steps: seq<Step>, run': seq<World>, steps': seq<Step>,
          n: nat, m: nat, k: nat)
    requires n < |run| && IsShadow(u, run, steps, run', steps', n) && m < k <= n && steps'[m] == Write(u)
    ensures Sequentially(run'[0].rules, run'[k].clients, WriteOrder(steps'[..k])) == Some(Sheet(true))
  {
    var order := WriteOrder(steps'[..k]);
    WroteIsIn(steps', m, k);
    WritersAreDone(run', steps', k);
    forall x | x in order ensures x in run'[k].clients && run'[k].clients[x].change == Marking(x == u) {
      ShadowChange(u, run, steps, run', steps', n, k, x);
    }
    MarkIsKept(u, run'[k].clients, order);
  }

  lemma {:induction false} MarkIsLost(u: Token, run: seq<World>, steps: seq<Step>, run': seq<World>, steps': seq<Step>,
          n: nat, i: nat, m: nat, j: nat)
    requires n < |run| && IsShadow(u, run, steps, run', steps', n) && j < n && BreaksIn(steps', i, m, j)
    requires steps'[m] == Write(u)
    ensures run'[j + 1].rules == Sheet(false)
  {
    WritesOnce(run', steps', m, steps'[i].token, j);
    forall x | 0 <= x < i ensures steps'[x] != Write(u) {
      if steps'[x] == Write(u) {
        WritesOnce(run', steps', x, u, m);
      }
    }
    NoMarkYet(u, run, steps, run', steps', n, i);
    WriteRestsOnFetch(run', steps', i, j);
    ShadowChange(u, run, steps, run', steps', n, j, steps'[i].token);
    MarkStays(false, false);
  }

  lemma {:induction false} ShadowKeepsSchedule(u: Token, run: seq<World>, steps: seq<Step>, run': seq<World>,
          steps': seq<Step>, i: nat, m: nat, j: nat)
    requires |steps| < |run| && IsShadow(u, run, steps, run', steps', |steps|) && BreaksIn(steps, i, m, j)
    ensures SameSchedule(steps, steps') && BreaksIn(steps', i, m, j) && steps'[m] == steps[m]
  {
    hide IsRun, Shadows;
  }

  lemma {:induction false} MarkShows()
    ensures Sheet(true) != Sheet(false)
  {
    assert ListOf(Sheet(true)[0]) != ListOf(Sheet(false)[0]);
  }

  /** If a write does fall in between, then with some other changes the same steps lose it. */
  lemma {:induction false} BrokenLoses(run: seq<World>, steps: seq<Step>, i: nat, m: nat, j: nat)
    returns (run': seq<World>, steps': seq<Step>)
    requires IsRun(run, steps) && BreaksIn(steps, i, m, j)
    ensures IsRun(run', steps') && SameSchedule(steps, steps') && j < |steps'| < |run'| && !Serial(run', steps', j + 1)
  {
    hide Enabled, Next, Shadows, SameSchedule, WriteOrder, Sequentially, Sheet;
    var u := steps[m].token;
    run', steps' := ShadowRun(u, run, steps, |steps|);
    ShadowKeepsSchedule(u, run, steps, run', steps', i, m, j);
    MarkBelongs(u, run, steps, run', steps', |steps|, m, j + 1);
    MarkIsLost(u, run, steps, run', steps', |steps|, i, m, j);
    MarkShows();
  }

  lemma {:induction false} WritesOnce(run: seq<World>, steps: seq<Step>, m: nat, t: Token, j: nat)
    requires IsRun(run, steps) && m < j < |steps| && steps[m].Write? && steps[j] == Write(t)
    ensures steps[m].token != t
  {
    PhasesAdvance(run, steps, m + 1, j, steps[m].token);
  }

  /** The exact condition on the steps: an interleaving gives a sequential result for whatever the calls ask
      of whatever rules, if and only if no write falls between a call's fetch and its own write. */
  lemma {:induction false} UnbrokenIsExact(run: seq<World>, steps: seq<Step>)
    requires IsRun(run, steps)
    ensures Unbroken(steps) <==>
            forall run', steps', k: nat :: IsRun(run', steps') && SameSchedule(steps, steps') && k <= |steps'| ==>
                     Serial(run', steps', k)
  {
    if Unbroken(steps) {
      forall run', steps', k: nat | IsRun(run', steps') && SameSchedule(steps, steps') && k <= |steps'|
        ensures Serial(run', steps', k) {
        SameBreaks(steps, steps');
        assert steps'[..|steps'|] == steps';
        UnbrokenBefore(steps', k, |steps'|);
        UnbrokenIsSerial(run', steps', k);
      }
    } else {
      var i: nat, m: nat, j: nat :| BreaksIn(steps, i, m, j);
      var run', steps' := BrokenLoses(run, steps, i, m, j);
    }
  }

  lemma {:induction false} SameBreaks(steps: seq<Step>, steps': seq<Step>)
    requires SameSchedule(steps, steps') && Unbroken(steps)
    ensures Unbroken(steps')
  {
    forall i: nat, m: nat, j: nat ensures !BreaksIn(steps', i, m, j) {
      if BreaksIn(steps', i, m, j) {
        assert SameMove(steps[i], steps'[i]) && SameMove(steps[m], steps'[m]) && SameMove(steps[j], steps'[j]);
        assert BreaksIn(steps, i, m, j);
      }
    }
  }

  // ---- What the lock does for it

  /** A call that may still write. */
  predicate AtWork(p: Phase) { p.Holding? || p.Fetched? }

  /** No lock expires before its holder has written. */
  ghost predicate InTime(w: World) {
    forall t :: t in w.clients && AtWork(w.clients[t].phase) ==> w.now < w.clients[t].phase.until
  }

  /** The successful ones of the calls, in the order in which they got the lock. */
  function Winners(acquired: seq<Token>, successful: set<Token>): seq<Token> {
    if acquired == [] then [] else
      Winners(acquired[..|acquired| - 1], successful) +
      (if acquired[|acquired| - 1] in successful then [acquired[|acquired| - 1]] else [])
  }

  ghost predicate OrderInv(w: World) {
    && (forall i :: 0 <= i < |w.acquired| ==> w.acquired[i] in w.clients && !w.clients[w.acquired[i]].phase.Waiting?)
    && (forall i, j :: 0 <= i < j < |w.acquired| ==> w.acquired[i] != w.acquired[j])
    && (forall t :: t in w.successful ==> t in w.clients && Rank(w.clients[t].phase) >= 3)
  }

  /** Who is in the section with a lock that has not expired holds it, and it is always held by the last to get it. */
  ghost predicate LockInv(w: World) {
    && (w.lock.Some? ==> w.acquired != [] && w.acquired[|w.acquired| - 1] == w.lock.value.token)
    && (forall t :: t in w.clients && InSection(w.clients[t].phase) && w.now < w.clients[t].phase.until ==>
          w.lock == Some(Lock(t, w.clients[t].phase.until)))
  }

  lemma {:induction false} StepKeepsOrder(w: World, step: Step)
    requires Enabled(w, step) && OrderInv(w)
    ensures OrderInv(Next(w, step))
  {
  }

  lemma {:induction false} StepKeepsLock(w: World, step: Step)
    requires Enabled(w, step) && LockInv(w)
    ensures LockInv(Next(w, step))
  {
  }

  lemma {:induction false} LockHolds(run: seq<World>, steps: seq<Step>, k: nat)
    requires IsRun(run, steps) && k <= |steps|
    ensures LockInv(run[k]) && OrderInv(run[k])
    decreases k
  {
    if k > 0 {
      LockHolds(run, steps, k - 1);
      StepKeepsLock(run[k - 1], steps[k - 1]);
      StepKeepsOrder(run[k - 1], steps[k - 1]);
    }
  }

  /** Whatever the timing, of the calls in the section at most one has a lock that has not expired. */
  lemma {:induction false} UnexpiredIsAlone(run: seq<World>, steps: seq<Step>, k: nat, t: Token, u: Token)
    requires IsRun(run, steps) && k <= |steps| && t in run[k].clients && u in run[k].clients
    requires InSection(run[k].clients[t].phase) && run[k].now < run[k].clients[t].phase.until
    requires InSection(run[k].clients[u].phase) && run[k].now < run[k].clients[u].phase.until
    ensures t == u
  {
    LockHolds(run, steps, k);
  }

  /** Locks that do not expire before the write keep writes from falling in between. */
  lemma {:induction false} InTimeIsUnbroken(run: seq<World>, steps: seq<Step>, k: nat)
    requires IsRun(run, steps) && k <= |steps|
    requires forall i :: 0 <= i < k ==> InTime(run[i])
    ensures Unbroken(steps[..k])
  {
    forall i: nat, m: nat, j: nat ensures !BreaksIn(steps[..k], i, m, j) {
      if BreaksIn(steps[..k], i, m, j) {
        var t, u := steps[i].token, steps[m].token;
        PhasesAdvance(run, steps, i + 1, m, t);
        PhasesAdvance(run, steps, m, j, t);
        assert run[m].clients[t].phase.Fetched? && run[m].clients[u].phase.Fetched?;
        UnexpiredIsAlone(run, steps, m, t, u);
        WritesOnce(run, steps, m, t, j);
      }
    }
  }

  lemma {:induction false} SameWinners(acquired: seq<Token>, a: set<Token>, b: set<Token>)
    requires forall t :: t in acquired ==> (t in a <==> t in b)
    ensures Winners(acquired, a) == Winners(acquired, b)
  {
    if acquired != [] {
      var rest, t := acquired[..|acquired| - 1], acquired[|acquired| - 1];
      assert acquired == rest + [t];
      SameWinners(rest, a, b);
    }
  }

  lemma {:induction false} WriterIsLast(w: World, t: Token)
    requires Enabled(w, Write(t)) && LockInv(w) && OrderInv(w) && InTime(w)
    ensures Winners(w.acquired, w.successful + {t}) == Winners(w.acquired, w.successful) + [t]
  {
    var rest := w.acquired[..|w.acquired| - 1];
    assert w.acquired[|w.acquired| - 1] == t && t !in w.successful;
    assert t !in rest;
    SameWinners(rest, w.successful, w.successful + {t});
    assert Winners(rest, w.successful) + [] == Winners(rest, w.successful);
  }

  lemma {:induction false} NewcomerHasNotWon(w: World, t: Token)
    requires Enabled(w, Acquire(t)) && OrderInv(w)
    ensures Winners(w.acquired + [t], w.successful) == Winners(w.acquired, w.successful)
  {
    assert (w.acquired + [t])[..|w.acquired|] == w.acquired;
    assert t !in w.successful;
    assert Winners(w.acquired, w.successful) + [] == Winners(w.acquired, w.successful);
  }

  /** And then the calls write in the order in which they got the lock. */
  lemma {:induction false} WritesInLockOrder(run: seq<World>, steps: seq<Step>, k: nat)
    requires IsRun(run, steps) && k <= |steps|
    requires forall i :: 0 <= i < k ==> InTime(run[i])
    ensures WriteOrder(steps[..k]) == Winners(run[k].acquired, run[k].successful)
    decreases k
  {
    if k > 0 {
      WritesInLockOrder(run, steps, k - 1);
      WriteOrderGrows(steps, k - 1);
      LockHolds(run, steps, k - 1);
      var w, step := run[k - 1], steps[k - 1];
      if step.Write? {
        WriterIsLast(w, step.token);
      } else if step.Acquire? {
        NewcomerHasNotWon(w, step.token);
      }
    }
  }

  lemma {:induction false} AloneAtWork(w: World, step: Step, t: Token, u: Token)
    requires Enabled(w, step) && LockInv(w) && InTime(w)
    requires t in Next(w, step).clients && u in Next(w, step).clients
    requires AtWork(Next(w, step).clients[t].phase) && AtWork(Next(w, step).clients[u].phase)
    ensures t == u
  {
  }

  /** If no lock expires before its holder has written, then at every moment the rules are what the successful
      calls so far produce one after the other, in the order in which they got the lock, and at most one call
      is at work: no update is lost. */
  lemma {:induction false} NoUpdateIsLost(run: seq<World>, steps: seq<Step>, k: nat)
    requires IsRun(run, steps) && k <= |steps|
    requires forall i :: 0 <= i < k ==> InTime(run[i])
    ensures var w := run[k];
            Sequentially(run[0].rules, w.clients, Winners(w.acquired, w.successful)) == Some(w.rules)
    ensures var clients := run[k].clients;
            forall t, u :: t in clients && u in clients && AtWork(clients[t].phase) && AtWork(clients[u].phase) ==>
              t == u
  {
    InTimeIsUnbroken(run, steps, k);
    UnbrokenIsSerial(run, steps, k);
    WritesInLockOrder(run, steps, k);
    forall t, u | && t in run[k].clients && AtWork(run[k].clients[t].phase)
                  && u in run[k].clients && AtWork(run[k].clients[u].phase)
      ensures t == u
    {
      if k > 0 {
        LockHolds(run, steps, k - 1);
        AloneAtWork(run[k - 1], steps[k - 1], t, u);
      }
    }
  }

  lemma {:induction false} ReleaseSparesOthers(w: World, step: Step)
    requires Enabled(w, step) && Held(w.lock, w.now)
    requires step != Release(w.lock.value.token)
    ensures Next(w, step).lock == w.lock
  {
  }

  /** Without that assumption: a lock that has not expired is ended by its own holder alone. */
  lemma {:induction false} HolderKeepsLock(run: seq<World>, steps: seq<Step>, i: nat, j: nat)
    requires IsRun(run, steps) && i <= j <= |steps|
    requires run[i].lock.Some? && run[j].now < run[i].lock.value.expiresAt
    requires forall k :: i <= k < j ==> steps[k] != Release(run[i].lock.value.token)
    ensures run[j].lock == run[i].lock
    decreases j
  {
    if i < j {
      TimePasses(run[j - 1], steps[j - 1]);
      HolderKeepsLock(run, steps, i, j - 1);
      ReleaseSparesOthers(run[j - 1], steps[j - 1]);
    }
  }

  lemma {:induction false} TimePasses(w: World, step: Step)
    requires Enabled(w, step)
    ensures w.now <= Next(w, step).now
  {
  }

  /** Two calls of which the first has read and then lost its lock to time. */
  lemma {:induction false} LockRunsOut(rules: seq<Rule>, a: Token, b: Token, ca: Change, cb: Change)
    returns (run: seq<World>, steps: seq<Step>)
    requires a != b
    ensures IsRun(run, steps) && run[0].rules == rules
    ensures var w := run[|steps|];
            w == World(TTL_MS, Some(Lock(a, TTL_MS)), rules,
                       map[a := Client(ca, Fetched(TTL_MS, rules)), b := Client(cb, Waiting(MAX_WAIT_MS, 0))], [a], {})
  {
    run, steps := [World(0, None, rules, map[], [], {})], [];
    run, steps := Extend(run, steps, Start(a, ca));
    run, steps := Extend(run, steps, Start(b, cb));
    run, steps := Extend(run, steps, Acquire(a));
    run, steps := Extend(run, steps, Fetch(a));
    run, steps := Extend(run, steps, Pass(TTL_MS));
    assert run[|steps|].clients ==
             map[a := Client(ca, Fetched(TTL_MS, rules)), b := Client(cb, Waiting(MAX_WAIT_MS, 0))];
    assert run[|steps|].acquired == [a];
  }

  /** The assumption is needed: for any two updates there is a run in which both succeed, the lock of the
      first expires between its read and its write, and the rules end as if the second had never happened. */
  lemma {:induction false} ExpiryLosesUpdate(rules: seq<Rule>, a: Token, b: Token, ca: Change, cb: Change)
    returns (run: seq<World>, steps: seq<Step>)
    requires a != b && Updated(rules, ca).Some? && Updated(rules, cb).Some?
    ensures IsRun(run, steps) && run[0].rules == rules
    ensures var w := run[|steps|];
            w.successful == {a, b} && w.acquired == [a, b] && w.rules == Updated(rules, ca).value
  {
    run, steps := LockRunsOut(rules, a, b, ca, cb);
    run, steps := Extend(run, steps, Acquire(b));
    run, steps := Extend(run, steps, Fetch(b));
    assert run[|steps|].clients[b] == Client(cb, Fetched(2 * TTL_MS, rules));
    run, steps := Extend(run, steps, Write(b));
    assert run[|steps|].clients[a] == Client(ca, Fetched(TTL_MS, rules));
    run, steps := Extend(run, steps, Write(a));
    assert run[|steps|].acquired == [a, b];
  }
}

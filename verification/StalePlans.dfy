/** Two executions of one action at once: both are planned from what the ledger said before either. */
module StalePlans {
  import opened Options
  import opened Firewall
  import opened FirewallLock
  import Action

  predicate BothDiffer(a: Option<string>, b: Option<string>) {
    a.Some? && b.Some? && a != b
  }

  /** In some family both write, and not the same. */
  predicate Differ(x: IpValues, y: IpValues) {
    || BothDiffer(Entry(x.ipv4, Action.IPv4), Entry(y.ipv4, Action.IPv4))
    || BothDiffer(Entry(x.ipv6, Action.IPv6), Entry(y.ipv6, Action.IPv6))
  }

  /** In some family both write, not the same, and the first writes something new. */
  predicate Clash(owned: Action.Owned, x: IpValues, y: IpValues) {
    || (BothDiffer(Entry(x.ipv4, Action.IPv4), Entry(y.ipv4, Action.IPv4)) && owned.ipv4 != Entry(x.ipv4, Action.IPv4))
    || (BothDiffer(Entry(x.ipv6, Action.IPv6), Entry(y.ipv6, Action.IPv6)) && owned.ipv6 != Entry(x.ipv6, Action.IPv6))
  }

  ghost predicate OwnedWritten(owned: Action.Owned) {
    && (owned.ipv4.Some? ==> Written(owned.ipv4.value, Action.IPv4))
    && (owned.ipv6.Some? ==> Written(owned.ipv6.value, Action.IPv6))
  }

  lemma {:induction false} NeverBoth(v: string)
    ensures !(Written(v, Action.IPv4) && Written(v, Action.IPv6))
  {
    if Written(v, Action.IPv4) && Written(v, Action.IPv6) {
      var a: string :| v == ToCidr(a, Action.IPv4);
      var b: string :| v == ToCidr(b, Action.IPv6);
      FamiliesAreApart(a, b);
    }
  }

  lemma {:induction false} EntryWritten(v: Option<string>, family: Action.Family)
    ensures Entry(v, family).Some? ==> Written(Entry(v, family).value, family)
  {
  }

  lemma {:induction false} EntriesWritten(x: IpValues, y: IpValues)
    ensures Entry(x.ipv4, Action.IPv4).Some? ==> Written(Entry(x.ipv4, Action.IPv4).value, Action.IPv4)
    ensures Entry(x.ipv6, Action.IPv6).Some? ==> Written(Entry(x.ipv6, Action.IPv6).value, Action.IPv6)
    ensures Entry(y.ipv4, Action.IPv4).Some? ==> Written(Entry(y.ipv4, Action.IPv4).value, Action.IPv4)
    ensures Entry(y.ipv6, Action.IPv6).Some? ==> Written(Entry(y.ipv6, Action.IPv6).value, Action.IPv6)
  {
  }

  /** Without a clash the stale plan removes what a fresh one would, of what is to go. */
  lemma {:induction false} StaleRemoves(owned: Action.Owned, x: IpValues, y: IpValues, v: string)
    requires OwnedWritten(owned) && !Clash(owned, x, y)
    requires Owns(OwnedAfter(owned, x), v) && v !in Adds(y)
    ensures v in Removes(owned, y) <==> v in Removes(OwnedAfter(owned, x), y)
  {
    EntriesWritten(x, y);
    NeverBoth(v);
    hide Written;
  }

  /** With one, an entry of the first is left that nobody owns, whoever is recorded last. */
  lemma {:induction false} Orphan(owned: Action.Owned, x: IpValues, y: IpValues) returns (v: string)
    requires OwnedWritten(owned) && Clash(owned, x, y)
    ensures v in Adds(x) && v !in Adds(y) && v !in Removes(owned, y)
    ensures !Owns(OwnedAfter(OwnedAfter(owned, x), y), v)
  {
    hide Written, ToCidr;
    EntriesWritten(x, y);
    if BothDiffer(Entry(x.ipv4, Action.IPv4), Entry(y.ipv4, Action.IPv4)) && owned.ipv4 != Entry(x.ipv4, Action.IPv4) {
      v := Entry(x.ipv4, Action.IPv4).value;
      NeverBoth(v);
    } else {
      v := Entry(x.ipv6, Action.IPv6).value;
      NeverBoth(v);
    }
  }

  function StaleList(list: seq<string>, owned: Action.Owned, x: IpValues, y: IpValues): seq<string> {
    Rewritten(Rewritten(list, Removes(owned, x), Adds(x)), Removes(owned, y), Adds(y))
  }

  lemma {:induction false} StaleListHas(list: seq<string>, owned: Action.Owned, x: IpValues, y: IpValues, v: string)
    requires v != ""
    ensures v in StaleList(list, owned, x, y) <==>
            v in Adds(y) || (v !in Removes(owned, y) && (v in Adds(x) || (v in list && v !in Removes(owned, x))))
  {
    hide Rewritten, Removes, Adds;
    RewrittenHas(list, Removes(owned, x), Adds(x), v);
    RewrittenHas(Rewritten(list, Removes(owned, x), Adds(x)), Removes(owned, y), Adds(y), v);
  }

  ghost function EverAfter(ever: set<string>, x: IpValues, y: IpValues): set<string> {
    ever + ElementsOf(Adds(x)) + ElementsOf(Adds(y))
  }

  lemma {:induction false} EntryFits(list: seq<string>, owned: Action.Owned, ever: set<string>, x: IpValues,
          y: IpValues, v: string)
    requires Books(list, owned, ever) && v in EverAfter(ever, x, y) && !Clash(owned, x, y)
    ensures v != "" && (v in StaleList(list, owned, x, y) <==> Owns(OwnedAfter(OwnedAfter(owned, x), y), v))
  {
    hide Written, StaleList, Removes, Adds, Owns, OwnedAfter, Clash, ToCidr, Entry;
    CidrIsWritten(x);
    CidrIsWritten(y);
    OwnedIsWritten(owned, x);
    StaleListHas(list, owned, x, y, v);
    OwnedApart(owned, x, v);
    OwnedApart(OwnedAfter(owned, x), y, v);
    if Owns(OwnedAfter(owned, x), v) && v !in Adds(y) {
      StaleRemoves(owned, x, y, v);
    }
  }

  lemma {:induction false} StaleBooks(list: seq<string>, owned: Action.Owned, ever: set<string>, x: IpValues,
          y: IpValues)
    requires Books(list, owned, ever) && !Clash(owned, x, y)
    ensures Books(StaleList(list, owned, x, y), OwnedAfter(OwnedAfter(owned, x), y), EverAfter(ever, x, y))
  {
    var owned' := OwnedAfter(OwnedAfter(owned, x), y);
    forall v | v in EverAfter(ever, x, y) ensures v != "" && (v in StaleList(list, owned, x, y) <==> Owns(owned', v)) {
      EntryFits(list, owned, ever, x, y, v);
    }
    forall v | Owns(owned', v) ensures v in EverAfter(ever, x, y) {
      OwnedGrows(owned, ever, x, y, v);
    }
    OwnedIsWritten(owned, x);
    OwnedIsWritten(OwnedAfter(owned, x), y);
    hide Written, StaleList, Owns, OwnedAfter, Clash, EverAfter;
  }

  lemma {:induction false} OwnedGrows(owned: Action.Owned, ever: set<string>, x: IpValues, y: IpValues, v: string)
    requires forall u :: Owns(owned, u) ==> u in ever
    requires Owns(OwnedAfter(OwnedAfter(owned, x), y), v)
    ensures v in EverAfter(ever, x, y)
  {
    hide Owns, OwnedAfter, Adds;
    forall u | Owns(OwnedAfter(owned, x), u) ensures u in ever + ElementsOf(Adds(x)) {
      OwnedWasWritten(owned, ever, x, u);
    }
    OwnedWasWritten(OwnedAfter(owned, x), ever + ElementsOf(Adds(x)), y, v);
  }

  /** If they are recorded in the order in which they wrote, the books are right exactly if there is no clash. */
  lemma {:induction false} InOrderIsExact(list: seq<string>, owned: Action.Owned, ever: set<string>, x: IpValues,
          y: IpValues)
    requires Books(list, owned, ever)
    ensures Books(StaleList(list, owned, x, y), OwnedAfter(OwnedAfter(owned, x), y), EverAfter(ever, x, y)) <==>
              !Clash(owned, x, y)
  {
    if Clash(owned, x, y) {
      var v := Orphan(owned, x, y);
      CidrIsWritten(x);
      StaleListHas(list, owned, x, y, v);
      hide Written, StaleList, Owns, OwnedAfter, Clash;
    } else {
      StaleBooks(list, owned, ever, x, y);
    }
  }

  /** If they are recorded the other way round, exactly if they write nothing different. */
  lemma {:induction false} ReversedIsExact(list: seq<string>, owned: Action.Owned, ever: set<string>, x: IpValues,
          y: IpValues)
    requires Books(list, owned, ever)
    ensures Books(StaleList(list, owned, x, y), OwnedAfter(OwnedAfter(owned, y), x), EverAfter(ever, x, y)) <==>
              !Differ(x, y)
  {
    if Differ(x, y) {
      var v := LastIsOrphan(owned, x, y);
      CidrIsWritten(y);
      StaleListHas(list, owned, x, y, v);
      hide Written, StaleList, Owns, OwnedAfter, Differ;
    } else {
      assert OwnedAfter(OwnedAfter(owned, y), x) == OwnedAfter(OwnedAfter(owned, x), y);
      StaleBooks(list, owned, ever, x, y);
    }
  }

  lemma {:induction false} LastIsOrphan(owned: Action.Owned, x: IpValues, y: IpValues) returns (v: string)
    requires OwnedWritten(owned) && Differ(x, y)
    ensures v in Adds(y) && !Owns(OwnedAfter(OwnedAfter(owned, y), x), v)
  {
    EntriesWritten(x, y);
    if BothDiffer(Entry(x.ipv4, Action.IPv4), Entry(y.ipv4, Action.IPv4)) {
      v := ToCidr(y.ipv4.value, Action.IPv4);
    } else {
      v := ToCidr(y.ipv6.value, Action.IPv6);
    }
    NeverBoth(v);
    hide Written, ToCidr;
  }

  // ---- On the rules, and under the lock

  function BothWrite(selector: Selector, l: Ledger, x: IpValues, y: IpValues): seq<Rule> {
    OrSame(OrSame(l.rules, ChangeOf(selector, l.action.owned, x)), ChangeOf(selector, l.action.owned, y))
  }

  lemma {:induction false} BothWriteAt(selector: Selector, k: nat, l: Ledger, x: IpValues, y: IpValues)
    requires MatchFirewallRule(l.rules, selector) == Resolved(k)
    ensures var rules := BothWrite(selector, l, x, y);
            && |rules| == |l.rules| && MatchFirewallRule(rules, selector) == Resolved(k)
            && ListOf(rules[k]) == StaleList(ListOf(l.rules[k]), l.action.owned, x, y)
  {
    hide OrSame, MatchFirewallRule, Rewritten, Removes, Adds;
    var c, d := ChangeOf(selector, l.action.owned, x), ChangeOf(selector, l.action.owned, y);
    UpdateKeepsSelection(l.rules, c, selector);
    UpdateKeepsSelection(OrSame(l.rules, c), d, selector);
    UpdatedAt(l.rules, c, k);
    UpdatedAt(OrSame(l.rules, c), d, k);
  }

  function Recorded(action: Action.State, first: IpValues, second: IpValues): Action.Owned {
    Action.Reduce(Action.Reduce(action, RecordOf(first)), RecordOf(second)).owned
  }

  /** Both executions planned from the same ledger: the rule then holds, of all the action ever wrote, exactly
      what its record says, if and only if they do not clash, when they are recorded in the order in which they
      wrote; and if and only if they do not differ, when they are recorded the other way round. */
  lemma {:induction false} StalePlansAreExact(selector: Selector, k: nat, l: Ledger, x: IpValues, y: IpValues)
    requires MatchFirewallRule(l.rules, selector) == Resolved(k) && LedgerInv(k, l)
    ensures var rules, ever := BothWrite(selector, l, x, y), EverAfter(l.ever, x, y);
            && |rules| == |l.rules| && MatchFirewallRule(rules, selector) == Resolved(k)
            && (Books(ListOf(rules[k]), Recorded(l.action, x, y), ever) <==> !Clash(l.action.owned, x, y))
            && (Books(ListOf(rules[k]), Recorded(l.action, y, x), ever) <==> !Differ(x, y))
  {
    BothWriteAt(selector, k, l, x, y);
    RecordedIs(l.action, x, y);
    RecordedIs(l.action, y, x);
    InOrderIsExact(ListOf(l.rules[k]), l.action.owned, l.ever, x, y);
    ReversedIsExact(ListOf(l.rules[k]), l.action.owned, l.ever, x, y);
    hide *;
  }

  lemma {:induction false} RecordedIs(action: Action.State, first: IpValues, second: IpValues)
    ensures Recorded(action, first, second) == OwnedAfter(OwnedAfter(action.owned, first), second)
  {
    OwnedInParts(action, first);
    OwnedInParts(Action.Reduce(action, RecordOf(first)), second);
    hide Action.Reduce, OwnedAfter;
  }

  /** No time has passed yet. */
  ghost predicate AtZero(w: World) {
    w.now == 0 && forall t :: t in w.clients && AtWork(w.clients[t].phase) ==> w.clients[t].phase.until == TTL_MS
  }

  lemma {:induction false} ExtendAtZero(run: seq<World>, steps: seq<FirewallLock.Step>, step: FirewallLock.Step)
    returns (run': seq<World>, steps': seq<FirewallLock.Step>)
    requires FirewallLock.IsRun(run, steps) && FirewallLock.Enabled(run[|steps|], step) && !step.Pass?
    requires forall i :: 0 <= i < |run| ==> AtZero(run[i])
    ensures FirewallLock.IsRun(run', steps') && run'[0] == run[0]
    ensures run'[|steps'|] == FirewallLock.Next(run[|steps|], step)
    ensures forall i :: 0 <= i < |run'| ==> AtZero(run'[i])
  {
    run', steps' := Extend(run, steps, step);
    StillAtZero(run[|steps|], step);
    hide FirewallLock.Next, FirewallLock.Enabled, AtZero;
  }

  lemma {:induction false} StillAtZero(w: World, step: FirewallLock.Step)
    requires AtZero(w) && FirewallLock.Enabled(w, step) && !step.Pass?
    ensures AtZero(FirewallLock.Next(w, step))
  {
  }

  /** Two calls at the start, of which the first has come so far. */
  function Two(rules: seq<Rule>, a: Token, b: Token, ca: Change, cb: Change, phase: Phase, lock: Option<Lock>): World {
    var clients := map[a := Client(ca, phase), b := Client(cb, Waiting(MAX_WAIT_MS, 0))];
    var started, returned := !phase.Waiting?, !phase.Waiting? && lock.None?;
    World(0, lock, rules, clients, if started then [a] else [], if returned then {a} else {})
  }

  lemma {:induction false} Starts(rules: seq<Rule>, a: Token, b: Token, ca: Change, cb: Change)
    requires a != b
    ensures var nobody := World(0, None, rules, map[], [], {});
            && AtZero(nobody) && FirewallLock.IsRun([nobody], [])
            && FirewallLock.Enabled(nobody, FirewallLock.Step.Start(a, ca))
            && var one := FirewallLock.Next(nobody, FirewallLock.Step.Start(a, ca));
               && FirewallLock.Enabled(one, FirewallLock.Step.Start(b, cb))
               && FirewallLock.Next(one, FirewallLock.Step.Start(b, cb)) ==
                    Two(rules, a, b, ca, cb, Waiting(MAX_WAIT_MS, 0), None)
  {
  }

  lemma {:induction false} TakesAndReads(rules: seq<Rule>, a: Token, b: Token, ca: Change, cb: Change)
    requires a != b
    ensures var lock := Some(Lock(a, TTL_MS));
            var waiting := Two(rules, a, b, ca, cb, Waiting(MAX_WAIT_MS, 0), None);
            var holding := Two(rules, a, b, ca, cb, Holding(TTL_MS), lock);
            && FirewallLock.Enabled(waiting, Acquire(a)) && FirewallLock.Next(waiting, Acquire(a)) == holding
            && FirewallLock.Enabled(holding, Fetch(a))
            && FirewallLock.Next(holding, Fetch(a)) == Two(rules, a, b, ca, cb, Fetched(TTL_MS, rules), lock)
  {
  }

  function Wrote(rules: seq<Rule>, a: Token, b: Token, ca: Change, cb: Change): World
    requires Updated(rules, ca).Some?
  {
    Two(Updated(rules, ca).value, a, b, ca, cb, Finished(true), None)
  }

  lemma {:induction false} WritesAndReturns(rules: seq<Rule>, a: Token, b: Token, ca: Change, cb: Change)
    requires a != b && Updated(rules, ca).Some?
    ensures var fetched := Two(rules, a, b, ca, cb, Fetched(TTL_MS, rules), Some(Lock(a, TTL_MS)));
            && FirewallLock.Enabled(fetched, Write(a))
            && var written := FirewallLock.Next(fetched, Write(a));
               && FirewallLock.Enabled(written, FirewallLock.Step.Release(a))
               && FirewallLock.Next(written, FirewallLock.Step.Release(a)) == Wrote(rules, a, b, ca, cb)
  {
    hide Updated;
  }

  lemma {:induction false} FirstWrites(rules: seq<Rule>, a: Token, b: Token, ca: Change, cb: Change)
    returns (run: seq<World>, steps: seq<FirewallLock.Step>)
    requires a != b && Updated(rules, ca).Some?
    ensures FirewallLock.IsRun(run, steps) && run[0].rules == rules && forall i :: 0 <= i < |run| ==> AtZero(run[i])
    ensures run[|steps|] == Wrote(rules, a, b, ca, cb)
  {
    hide Updated, AtZero, FirewallLock.Next, FirewallLock.Enabled, FirewallLock.IsRun, Two, Wrote;
    Starts(rules, a, b, ca, cb);
    TakesAndReads(rules, a, b, ca, cb);
    WritesAndReturns(rules, a, b, ca, cb);
    run, steps := [World(0, None, rules, map[], [], {})], [];
    run, steps := ExtendAtZero(run, steps, FirewallLock.Step.Start(a, ca));
    run, steps := ExtendAtZero(run, steps, FirewallLock.Step.Start(b, cb));
    run, steps := ExtendAtZero(run, steps, Acquire(a));
    run, steps := ExtendAtZero(run, steps, Fetch(a));
    run, steps := ExtendAtZero(run, steps, Write(a));
    run, steps := ExtendAtZero(run, steps, FirewallLock.Step.Release(a));
  }

  /** The lock does not help: whenever two executions clash, there is a run in which both get the lock in turn,
      in time, and succeed, and the rule is left with an entry that the record does not own. */
  lemma {:induction false} StalePlansLeaveOrphan(selector: Selector, k: nat, l: Ledger, x: IpValues, y: IpValues,
          a: Token, b: Token)
    returns (run: seq<World>, steps: seq<FirewallLock.Step>, v: string)
    requires MatchFirewallRule(l.rules, selector) == Resolved(k) && LedgerInv(k, l)
    requires a != b && Clash(l.action.owned, x, y)
    ensures FirewallLock.IsRun(run, steps) && run[0].rules == l.rules && forall i :: 0 <= i < |run| ==> InTime(run[i])
    ensures var w := run[|steps|];
            && w.successful == {a, b} && a in w.clients && b in w.clients
            && w.clients[a].change == ChangeOf(selector, l.action.owned, x)
            && w.clients[b].change == ChangeOf(selector, l.action.owned, y)
            && k < |w.rules| && v in ListOf(w.rules[k]) && v in Adds(x)
            && !Owns(Recorded(l.action, x, y), v)
  {
    var c, d := ChangeOf(selector, l.action.owned, x), ChangeOf(selector, l.action.owned, y);
    v := Orphan(l.action.owned, x, y);
    CidrIsWritten(x);
    StaleListHas(ListOf(l.rules[k]), l.action.owned, x, y, v);
    RecordedIs(l.action, x, y);
    BothWriteAt(selector, k, l, x, y);
    UpdateKeepsSelection(l.rules, c, selector);
    run, steps := InTurn(l.rules, a, b, c, d);
  }

  lemma {:induction false} InTurn(rules: seq<Rule>, a: Token, b: Token, ca: Change, cb: Change)
    returns (run: seq<World>, steps: seq<FirewallLock.Step>)
    requires a != b && Updated(rules, ca).Some? && Updated(OrSame(rules, ca), cb).Some?
    ensures FirewallLock.IsRun(run, steps) && run[0].rules == rules && forall i :: 0 <= i < |run| ==> InTime(run[i])
    ensures var w := run[|steps|];
            && w.successful == {a, b} && a in w.clients && b in w.clients
            && w.clients[a].change == ca && w.clients[b].change == cb && w.rules == OrSame(OrSame(rules, ca), cb)
  {
    hide Updated;
    run, steps := FirstWrites(rules, a, b, ca, cb);
    run, steps := ExtendAtZero(run, steps, Acquire(b));
    run, steps := ExtendAtZero(run, steps, Fetch(b));
    run, steps := ExtendAtZero(run, steps, Write(b));
  }
}

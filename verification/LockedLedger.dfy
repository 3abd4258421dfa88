/** What an action wrote, when its executions run under the lock among any number of concurrent updates. */
module LockedLedger {
  import opened Options
  import opened Firewall
  import opened FirewallLock
  import Action

  /** What the calls were for: executions of the one action, and updates of others. */
  type Purposes = map<Token, Firewall.Step>

  function PurposesOf(purposes: Purposes, order: seq<Token>): seq<Firewall.Step>
    requires forall t :: t in order ==> t in purposes
  {
    seq(|order|, i requires 0 <= i < |order| => purposes[order[i]])
  }

  /** The ledger after the given purposes, one after the other. */
  function LedgerAfter(selector: Selector, first: Ledger, steps: seq<Firewall.Step>): Ledger {
    if steps == [] then first
    else Firewall.Next(selector, LedgerAfter(selector, first, steps[..|steps| - 1]), steps[|steps| - 1])
  }

  function ChangeFor(selector: Selector, l: Ledger, purpose: Firewall.Step): Change {
    match purpose
    case Ours(ips) => ChangeOf(selector, l.action.owned, ips)
    case Theirs(c) => c
  }

  /** The executions are serial: each was planned from what the one before it in the order had recorded. */
  ghost predicate Planned(selector: Selector, first: Ledger, clients: map<Token, Client>, purposes: Purposes,
          order: seq<Token>) {
    && (forall t :: t in order ==> t in clients && t in purposes)
    && (forall i :: 0 <= i < |order| ==>
          clients[order[i]].change ==
          ChangeFor(selector, LedgerAfter(selector, first, PurposesOf(purposes, order)[..i]), purposes[order[i]]))
  }

  /** An execution has an address to write, and the others stay clear of what the action writes. */
  ghost predicate Clear(purposes: Purposes, ours: set<string>) {
    forall t :: t in purposes ==> ClearStep(purposes[t], ours)
  }

  ghost predicate ClearStep(purpose: Firewall.Step, ours: set<string>) {
    match purpose
    case Ours(ips) => (Present(ips.ipv4) || Present(ips.ipv6)) && forall v :: v in Adds(ips) ==> v in ours
    case Theirs(c) => forall v :: v in c.remove + c.add ==> v !in ours
  }

  ghost predicate FreshLedger(selector: Selector, first: Ledger) {
    first.ever == {} && first.action.owned == Action.Owned(None, None)
    && MatchFirewallRule(first.rules, selector).Resolved?
  }

  lemma {:induction false} SequenceBefore(rules: seq<Rule>, clients: map<Token, Client>, order: seq<Token>, i: nat)
    requires i <= |order| && Sequentially(rules, clients, order).Some?
    ensures Sequentially(rules, clients, order[..i]).Some?
    decreases |order|
  {
    if i < |order| {
      assert order[..|order| - 1][..i] == order[..i];
      SequenceBefore(rules, clients, order[..|order| - 1], i);
    } else {
      assert order[..i] == order;
    }
  }

  lemma {:induction false} SequenceStep(rules: seq<Rule>, clients: map<Token, Client>, order: seq<Token>, i: nat)
    requires i < |order| && Sequentially(rules, clients, order).Some? && order[i] in clients
    ensures Sequentially(rules, clients, order[..i]).Some? && Sequentially(rules, clients, order[..i + 1]).Some?
    ensures Updated(Sequentially(rules, clients, order[..i]).value, clients[order[i]].change) ==
              Sequentially(rules, clients, order[..i + 1])
  {
    hide Sequentially, Updated;
    SequenceBefore(rules, clients, order, i);
    SequenceBefore(rules, clients, order, i + 1);
    assert order[..i + 1] == order[..i] + [order[i]];
    OneMore(rules, clients, order[..i], order[i]);
  }

  lemma {:induction false} UpdateLands(selector: Selector, l: Ledger, purpose: Firewall.Step)
    requires Updated(l.rules, ChangeFor(selector, l, purpose)).Some?
    ensures Updated(l.rules, ChangeFor(selector, l, purpose)) == Some(Firewall.Next(selector, l, purpose).rules)
  {
  }

  lemma {:induction false} LedgerStepBy(selector: Selector, first: Ledger, steps: seq<Firewall.Step>, i: nat)
    requires i < |steps|
    ensures LedgerAfter(selector, first, steps[..i + 1]) ==
              Firewall.Next(selector, LedgerAfter(selector, first, steps[..i]), steps[i])
  {
    assert steps[..i + 1][..i] == steps[..i];
  }

  /** The ledger's rules are those of the sequence of calls. */
  ghost predicate Follows(selector: Selector, first: Ledger, clients: map<Token, Client>, purposes: Purposes,
          order: seq<Token>, i: nat)
    requires i <= |order| && forall t :: t in order ==> t in purposes
  {
    Sequentially(first.rules, clients, order[..i]) ==
      Some(LedgerAfter(selector, first, PurposesOf(purposes, order)[..i]).rules)
  }

  lemma {:induction false} FollowsOn(selector: Selector, first: Ledger, clients: map<Token, Client>, purposes: Purposes,
          order: seq<Token>, i: nat)
    requires Planned(selector, first, clients, purposes, order) && i < |order|
    requires Sequentially(first.rules, clients, order).Some? && Follows(selector, first, clients, purposes, order, i)
    ensures Follows(selector, first, clients, purposes, order, i + 1)
    ensures var l := LedgerAfter(selector, first, PurposesOf(purposes, order)[..i]);
            Updated(l.rules, ChangeFor(selector, l, purposes[order[i]])).Some?
  {
    hide Sequentially, LedgerAfter, Updated, Firewall.Next;
    var steps := PurposesOf(purposes, order);
    SequenceStep(first.rules, clients, order, i);
    UpdateLands(selector, LedgerAfter(selector, first, steps[..i]), steps[i]);
    LedgerStepBy(selector, first, steps, i);
  }

  lemma {:induction false} LedgerFollows(selector: Selector, first: Ledger, clients: map<Token, Client>,
          purposes: Purposes, order: seq<Token>, i: nat)
    requires Planned(selector, first, clients, purposes, order) && i <= |order|
    requires Sequentially(first.rules, clients, order).Some?
    ensures Follows(selector, first, clients, purposes, order, i)
    decreases i
  {
    if i > 0 {
      LedgerFollows(selector, first, clients, purposes, order, i - 1);
      FollowsOn(selector, first, clients, purposes, order, i - 1);
    }
  }

  lemma {:induction false} LedgerMayMove(selector: Selector, first: Ledger, clients: map<Token, Client>,
          purposes: Purposes, order: seq<Token>, ours: set<string>, i: nat)
    requires Planned(selector, first, clients, purposes, order) && Clear(purposes, ours) && i < |order|
    requires Sequentially(first.rules, clients, order).Some?
    ensures Possible(selector, LedgerAfter(selector, first, PurposesOf(purposes, order)[..i]), purposes[order[i]])
  {
    hide Sequentially, LedgerAfter, Updated;
    LedgerFollows(selector, first, clients, purposes, order, i);
    FollowsOn(selector, first, clients, purposes, order, i);
    assert ClearStep(purposes[order[i]], ours);
  }

  lemma {:induction false} LedgerRun(selector: Selector, first: Ledger, clients: map<Token, Client>, purposes: Purposes,
          order: seq<Token>, ours: set<string>)
    returns (run: seq<Ledger>)
    requires FreshLedger(selector, first) && Planned(selector, first, clients, purposes, order) && Clear(purposes, ours)
    requires Sequentially(first.rules, clients, order).Some?
    ensures Firewall.IsRun(selector, run, PurposesOf(purposes, order), ours) && run[0] == first
    ensures run[|order|] == LedgerAfter(selector, first, PurposesOf(purposes, order))
  {
    var steps := PurposesOf(purposes, order);
    run := seq(|order| + 1, i requires 0 <= i <= |order| => LedgerAfter(selector, first, steps[..i]));
    assert steps[..|order|] == steps;
    forall i | 0 <= i < |steps|
      ensures Possible(selector, run[i], steps[i]) && run[i + 1] == Firewall.Next(selector, run[i], steps[i]) {
      LedgerMayMove(selector, first, clients, purposes, order, ours, i);
      LedgerStepBy(selector, first, steps, i);
    }
    forall i | 0 <= i < |steps| ensures ClearStep(steps[i], ours) {
      assert steps[i] == purposes[order[i]];
    }
  }

  /** The ledger and the lock together: however the calls interleave, if no lock expires before its holder has
      written, the rules are those of the executions and the others' updates in the order in which they got the
      lock. So the selector still resolves to the same rule, of all the action ever wrote that rule holds exactly
      what the action's record says it owns, and everything else is as if the action had never run. */
  lemma {:induction false} LedgerHoldsUnderLock(selector: Selector, run: seq<World>, steps: seq<FirewallLock.Step>,
          k: nat, purposes: Purposes, first: Ledger, ours: set<string>)
    requires FirewallLock.IsRun(run, steps) && k <= |steps|
    requires forall i :: 0 <= i < k ==> InTime(run[i])
    requires FreshLedger(selector, first) && first.rules == run[0].rules && Clear(purposes, ours)
    requires Planned(selector, first, run[k].clients, purposes, Winners(run[k].acquired, run[k].successful))
    ensures var w := run[k];
            var done := PurposesOf(purposes, Winners(w.acquired, w.successful));
            var l := LedgerAfter(selector, first, done);
            var own := MatchFirewallRule(run[0].rules, selector);
            && l.rules == w.rules
            && MatchFirewallRule(w.rules, selector) == own
            && own.index < |w.rules| && Books(ListOf(w.rules[own.index]), l.action.owned, l.ever)
            && RulesApart(own.index, w.rules, OthersOnly(run[0].rules, done), ours)
  {
    var order := Winners(run[k].acquired, run[k].successful);
    var done := PurposesOf(purposes, order);
    NoUpdateIsLost(run, steps, k);
    var ledgers := LedgerRun(selector, first, run[k].clients, purposes, order, ours);
    LedgerFollows(selector, first, run[k].clients, purposes, order, |order|);
    assert order[..|order|] == order && done[..|done|] == done;
    LedgerHolds(selector, ledgers, done, ours, |done|);
    OthersDoNotNotice(selector, ledgers, done, ours, |done|);
  }
}

/** Firewall rules: the selector, the rewriting of one rule's address list, and the ledger of what an action
wrote there. */
module Firewall {
  import opened Options
  import opened Ordering
  import Action

  datatype Rule = Rule(
    direction: string,
    protocol: string,
    port: Option<string>,
    description: Option<string>,
    sourceIps: Option<seq<string>>,
    destinationIps: Option<seq<string>>)

  datatype Selector = Selector(direction: string, protocol: string, port: Option<string>, description: string)

  datatype Match = Resolved(index: nat) | NoMatch | Ambiguous(count: nat)

  predicate Selects(s: Selector, r: Rule) {
    && r.direction == s.direction && r.protocol == s.protocol && r.port == s.port
    && (if r.description.Some? then r.description.value else "") == s.description
  }

  function Selected(rules: seq<Rule>, s: Selector): (r: seq<nat>)
    ensures forall i :: 0 <= i < |r| ==> r[i] < |rules|
  {
    if rules == [] then [] else
      Selected(rules[..|rules| - 1], s) + (if Selects(s, rules[|rules| - 1]) then [|rules| - 1] else [])
  }

  function MatchFirewallRule(rules: seq<Rule>, s: Selector): (m: Match)
    ensures m.Resolved? ==> m.index < |rules|
  {
    var matches := Selected(rules, s);
    if |matches| == 0 then NoMatch
    else if |matches| > 1 then Ambiguous(|matches|)
    else Resolved(matches[0])
  }

  lemma {:induction false} SelectedAre(rules: seq<Rule>, s: Selector)
    ensures forall i :: i in Selected(rules, s) <==> 0 <= i < |rules| && Selects(s, rules[i])
    ensures forall i, j :: 0 <= i < j < |Selected(rules, s)| ==> Selected(rules, s)[i] < Selected(rules, s)[j]
  {
    if rules != [] {
      SelectedAre(rules[..|rules| - 1], s);
      var before := Selected(rules[..|rules| - 1], s);
      assert forall i :: 0 <= i < |before| ==> before[i] in before;
    }
  }

  /** Direction, protocol and port are the selector's, and so is the description, where a missing one counts as
      empty. */
  predicate Fits(s: Selector, r: Rule) {
    && s.direction == r.direction && s.protocol == r.protocol && s.port == r.port
    && (r.description == Some(s.description) || (r.description == None && s.description == ""))
  }

  /** The rules a selector fits. */
  ghost function Fitting(rules: seq<Rule>, s: Selector): set<nat> {
    set i: nat | i < |rules| && Fits(s, rules[i])
  }

  lemma {:induction false} SelectsSays(s: Selector, r: Rule)
    ensures Selects(s, r) <==> Fits(s, r)
  {
  }

  /** A selector resolves to a rule exactly if it fits that rule and no other, to nothing exactly if it fits none, and
      otherwise the number of rules it fits is counted. */
  lemma {:induction false} MatchSays(rules: seq<Rule>, s: Selector)
    ensures var m := MatchFirewallRule(rules, s);
            && (m.NoMatch? <==> forall i :: 0 <= i < |rules| ==> !Fits(s, rules[i]))
            && (m.Resolved? ==>
                  Fits(s, rules[m.index]) && forall i :: 0 <= i < |rules| && Fits(s, rules[i]) ==> i == m.index)
            && (m.Ambiguous? ==> m.count >= 2 && m.count == |Fitting(rules, s)|)
  {
    FittingAreSelected(rules, s);
    hide Fits, Selected;
    var m := Selected(rules, s);
    if |m| > 1 {
      CountDistinct(m);
    } else if |m| == 1 {
      assert m[0] in m;
      forall i | 0 <= i < |rules| && Fits(s, rules[i]) ensures i == m[0] {
        assert i in m;
      }
    }
  }

  lemma {:induction false} FittingAreSelected(rules: seq<Rule>, s: Selector)
    ensures forall i :: i in Selected(rules, s) <==> 0 <= i < |rules| && Fits(s, rules[i])
    ensures forall i, j :: 0 <= i < j < |Selected(rules, s)| ==> Selected(rules, s)[i] < Selected(rules, s)[j]
    ensures Among(Selected(rules, s)) == Fitting(rules, s)
    ensures Selected(rules, s) == [] ==> forall i :: 0 <= i < |rules| ==> !Fits(s, rules[i])
    ensures Selected(rules, s) != [] ==> exists i :: 0 <= i < |rules| && Fits(s, rules[i])
  {
    forall r: Rule ensures Selects(s, r) <==> Fits(s, r) {
      SelectsSays(s, r);
    }
    SelectedAre(rules, s);
    hide Selects, Fits, Selected;
    if Selected(rules, s) != [] {
      assert Selected(rules, s)[0] in Selected(rules, s);
    }
    forall i | 0 <= i < |rules| && Fits(s, rules[i]) ensures i in Selected(rules, s) {
    }
  }

  ghost function Among(m: seq<nat>): set<nat> {
    set i | i in m
  }

  lemma {:induction false} AmongGrows(m: seq<nat>, last: nat)
    ensures Among(m + [last]) == Among(m) + {last}
  {
    forall i ensures i in Among(m + [last]) <==> i in Among(m) + {last} {
      assert i in m + [last] <==> i in m || i == last;
    }
  }

  lemma {:induction false} CountDistinct(m: seq<nat>)
    requires forall i, j :: 0 <= i < j < |m| ==> m[i] < m[j]
    ensures |Among(m)| == |m|
  {
    if m == [] {
      assert Among(m) == {};
    } else {
      var rest, last := m[..|m| - 1], m[|m| - 1];
      CountDistinct(rest);
      AmongGrows(rest, last);
      assert m == rest + [last];
      assert last !in Among(rest);
      hide Among;
    }
  }

  /** A selector resolves to a rule exactly if it selects that rule and no other. */
  lemma {:induction false} ResolvedIsUnique(rules: seq<Rule>, s: Selector, k: nat)
    ensures MatchFirewallRule(rules, s) == Resolved(k) <==>
            k < |rules| && Selects(s, rules[k]) && forall i :: 0 <= i < |rules| && Selects(s, rules[i]) ==> i == k
    ensures MatchFirewallRule(rules, s) == NoMatch <==> forall i :: 0 <= i < |rules| ==> !Selects(s, rules[i])
  {
    SelectedAre(rules, s);
    hide Selected, Selects;
    var m := Selected(rules, s);
    if k < |rules| && Selects(s, rules[k]) && (forall i :: 0 <= i < |rules| && Selects(s, rules[i]) ==> i == k) {
      assert k in m;
    }
    if |m| > 0 {
      assert m[0] in m;
    }
    if |m| > 1 {
      assert m[1] in m && m[0] < m[1];
    }
  }

  // ---- Rewriting an address list

  function ListOf(r: Rule): seq<string> {
    var list := if r.direction == "in" then r.sourceIps else r.destinationIps;
    if list.Some? then list.value else []
  }

  function WithList(r: Rule, list: seq<string>): Rule {
    if r.direction == "in" then r.(sourceIps := Some(list)) else r.(destinationIps := Some(list))
  }

  function RemoveAll(list: seq<string>, gone: set<string>): seq<string> {
    if list == [] then [] else
      RemoveAll(list[..|list| - 1], gone) + (if list[|list| - 1] in gone then [] else [list[|list| - 1]])
  }

  function Push(list: seq<string>, entry: string): seq<string> {
    if entry in list then list else list + [entry]
  }

  function PushAll(list: seq<string>, entries: seq<string>): seq<string> {
    if entries == [] then list else Push(PushAll(list, entries[..|entries| - 1]), entries[|entries| - 1])
  }

  function ElementsOf(entries: seq<string>): set<string> {
    set e | e in entries
  }

  /** Empty texts among the entries are ignored. */
  function Given(entries: seq<string>): seq<string> {
    if entries == [] then [] else
      Given(entries[..|entries| - 1]) + (if entries[|entries| - 1] == "" then [] else [entries[|entries| - 1]])
  }

  function Rewritten(list: seq<string>, remove: seq<string>, add: seq<string>): seq<string> {
    PushAll(RemoveAll(list, ElementsOf(Given(remove))), Given(add))
  }

  datatype Change = Change(selector: Selector, remove: seq<string>, add: seq<string>)

  /** The rules a successful update writes back. */
  function Updated(rules: seq<Rule>, c: Change): Option<seq<Rule>> {
    var m := MatchFirewallRule(rules, c.selector);
    if !m.Resolved? then None
    else Some(rules[m.index := WithList(rules[m.index], Rewritten(ListOf(rules[m.index]), c.remove, c.add))])
  }

  /** The address list of a rule: the sources of an incoming one, the destinations of an outgoing one. */
  predicate HasList(r: Rule, list: seq<string>) {
    if r.direction == "in" then r.sourceIps == Some(list) || (r.sourceIps == None && list == [])
    else r.destinationIps == Some(list) || (r.destinationIps == None && list == [])
  }

  /** The rewritten list: what was there and is not to go, in its order, and behind it what is new. */
  ghost predicate Rewrites(list: seq<string>, list': seq<string>, c: Change) {
    exists kept, added :: RewritesTo(list, list', c, kept, added)
  }

  ghost predicate RewritesTo(list: seq<string>, list': seq<string>, c: Change, kept: seq<string>, added: seq<string>) {
    && list' == kept + added
    && Picks(kept, list, Stays(c.remove))
    && (forall v :: v in added ==> v in c.add && v !in kept && v != "")
    && (forall v :: v in c.add && v != "" ==> v in list')
    && (forall i, j :: 0 <= i < j < |added| ==> added[i] != added[j])
  }

  function Stays(remove: seq<string>): string -> bool {
    (v: string) => v == "" || v !in remove
  }

  method NextRules(rules: seq<Rule>, c: Change) returns (next: Option<seq<Rule>>)
    ensures next == Updated(rules, c)
    ensures next.Some? <==> MatchFirewallRule(rules, c.selector).Resolved?
    ensures next.Some? ==>
              var k := MatchFirewallRule(rules, c.selector).index;
              && |next.value| == |rules| && (forall i :: 0 <= i < |rules| && i != k ==> next.value[i] == rules[i])
              && OnlyListChanges(rules[k], next.value[k])
              && exists list, list' ::
                   HasList(rules[k], list) && HasList(next.value[k], list') && Rewrites(list, list', c)
  {
    UpdateSays(rules, c);
    hide Rewrites, HasList, OnlyListChanges;
    var matched := MatchFirewallRule(rules, c.selector);
    if !matched.Resolved? {
      return None;
    }
    var rule := rules[matched.index];
    var toRemove := ElementsOf(Given(c.remove));
    var toAdd := Given(c.add);
    var nextList := RemoveAll(ListOf(rule), toRemove);
    ghost var start := nextList;
    for i := 0 to |toAdd|
      invariant nextList == PushAll(start, toAdd[..i])
    {
      assert toAdd[..i + 1][..i] == toAdd[..i];
      if toAdd[i] !in nextList {
        nextList := nextList + [toAdd[i]];
      }
    }
    assert toAdd[..|toAdd|] == toAdd;
    next := Some(rules[matched.index := WithList(rule, nextList)]);
  }

  predicate OnlyListChanges(r: Rule, r': Rule) {
    if r.direction == "in" then r' == r.(sourceIps := r'.sourceIps) else r' == r.(destinationIps := r'.destinationIps)
  }

  lemma {:induction false} ListSays(r: Rule, list: seq<string>)
    ensures HasList(r, ListOf(r)) && HasList(WithList(r, list), list) && OnlyListChanges(r, WithList(r, list))
  {
  }

  lemma {:induction false} UpdateSays(rules: seq<Rule>, c: Change)
    ensures MatchFirewallRule(rules, c.selector).Resolved? ==>
              var k, rules' := MatchFirewallRule(rules, c.selector).index, Updated(rules, c).value;
              && OnlyListChanges(rules[k], rules'[k])
              && exists list, list' :: HasList(rules[k], list) && HasList(rules'[k], list') && Rewrites(list, list', c)
  {
    var m := MatchFirewallRule(rules, c.selector);
    if m.Resolved? {
      var list := ListOf(rules[m.index]);
      var list' := Rewritten(list, c.remove, c.add);
      ListSays(rules[m.index], list');
      RewrittenSays(list, c);
      hide Rewrites, HasList, OnlyListChanges, ListOf, WithList, Rewritten;
      assert HasList(rules[m.index], list) && HasList(Updated(rules, c).value[m.index], list');
    }
  }

  lemma {:induction false} RemoveAllPicks(list: seq<string>, gone: set<string>, wanted: string -> bool)
    requires forall v :: v in list ==> (wanted(v) <==> v !in gone)
    ensures Picks(RemoveAll(list, gone), list, wanted)
  {
    hide Picks;
    if list == [] {
      PicksNone(wanted);
    } else {
      var rest, last := list[..|list| - 1], list[|list| - 1];
      RemoveAllPicks(rest, gone, wanted);
      PicksMore(RemoveAll(rest, gone), rest, wanted, last);
      assert list == rest + [last];
    }
  }

  lemma {:induction false} PushAllAdds(list: seq<string>, entries: seq<string>) returns (added: seq<string>)
    ensures PushAll(list, entries) == list + added
    ensures forall v :: v in added ==> v in entries && v !in list
    ensures forall i, j :: 0 <= i < j < |added| ==> added[i] != added[j]
  {
    if entries == [] {
      added := [];
      assert list + [] == list;
    } else {
      var rest, last := entries[..|entries| - 1], entries[|entries| - 1];
      added := PushAllAdds(list, rest);
      assert entries == rest + [last];
      if last !in list + added {
        assert (list + added) + [last] == list + (added + [last]);
        added := added + [last];
      }
    }
  }

  lemma {:induction false} RewrittenSays(list: seq<string>, c: Change)
    ensures Rewrites(list, Rewritten(list, c.remove, c.add), c)
  {
    var gone, wanted := ElementsOf(Given(c.remove)), Stays(c.remove);
    var kept := RemoveAll(list, gone);
    forall v ensures wanted(v) <==> v !in gone {
      GivenHas(c.remove, v);
    }
    RemoveAllPicks(list, gone, wanted);
    var added := PushAllAdds(kept, Given(c.add));
    var list' := Rewritten(list, c.remove, c.add);
    forall v | v in added ensures v in c.add && v !in kept && v != "" {
      GivenHas(c.add, v);
    }
    forall v | v in c.add && v != "" ensures v in list' {
      GivenHas(c.add, v);
      PushAllHas(kept, Given(c.add), v);
    }
    hide RemoveAll, PushAll, Given, ElementsOf, Picks;
    assert RewritesTo(list, list', c, kept, added);
  }

  // ---- Facts about lists

  lemma {:induction false} RemoveAllHas(list: seq<string>, gone: set<string>, v: string)
    ensures v in RemoveAll(list, gone) <==> v in list && v !in gone
  {
    if list != [] {
      RemoveAllHas(list[..|list| - 1], gone, v);
      assert list == list[..|list| - 1] + [list[|list| - 1]];
    }
  }

  lemma {:induction false} PushAllHas(list: seq<string>, entries: seq<string>, v: string)
    ensures v in PushAll(list, entries) <==> v in list || v in entries
  {
    if entries != [] {
      PushAllHas(list, entries[..|entries| - 1], v);
      assert entries == entries[..|entries| - 1] + [entries[|entries| - 1]];
    }
  }

  lemma {:induction false} GivenHas(entries: seq<string>, v: string)
    ensures v in Given(entries) <==> v in entries && v != ""
  {
    if entries != [] {
      GivenHas(entries[..|entries| - 1], v);
      assert entries == entries[..|entries| - 1] + [entries[|entries| - 1]];
    }
  }

  /** What is in the list afterwards. */
  lemma {:induction false} RewrittenHas(list: seq<string>, remove: seq<string>, add: seq<string>, v: string)
    requires v != ""
    ensures v in Rewritten(list, remove, add) <==> (v in list && v !in remove) || v in add
  {
    PushAllHas(RemoveAll(list, ElementsOf(Given(remove))), Given(add), v);
    RemoveAllHas(list, ElementsOf(Given(remove)), v);
    GivenHas(remove, v);
    GivenHas(add, v);
  }

  lemma {:induction false} RemoveAllAppend(list: seq<string>, e: string, gone: set<string>)
    ensures RemoveAll(list + [e], gone) == RemoveAll(list, gone) + (if e in gone then [] else [e])
  {
    assert (list + [e])[..|list|] == list;
  }

  lemma {:induction false} RemoveAllCommutes(list: seq<string>, a: set<string>, b: set<string>)
    ensures RemoveAll(RemoveAll(list, a), b) == RemoveAll(RemoveAll(list, b), a)
    ensures a <= b ==> RemoveAll(RemoveAll(list, a), b) == RemoveAll(list, b)
  {
    if list != [] {
      var rest, e := list[..|list| - 1], list[|list| - 1];
      RemoveAllCommutes(rest, a, b);
      RemoveAllAppend(RemoveAll(rest, a), e, b);
      RemoveAllAppend(RemoveAll(rest, b), e, a);
      assert RemoveAll(rest, a) + [] == RemoveAll(rest, a) && RemoveAll(rest, b) + [] == RemoveAll(rest, b);
    }
  }

  lemma {:induction false} PushApart(list: seq<string>, e: string, hidden: set<string>)
    ensures RemoveAll(Push(list, e), hidden) == if e in hidden then RemoveAll(list, hidden)
                                                else Push(RemoveAll(list, hidden), e)
  {
    RemoveAllAppend(list, e, hidden);
    RemoveAllHas(list, hidden, e);
    assert RemoveAll(list, hidden) + [] == RemoveAll(list, hidden);
  }

  lemma {:induction false} PushAllApart(list: seq<string>, entries: seq<string>, hidden: set<string>)
    ensures (forall v :: v in entries ==> v !in hidden) ==>
              RemoveAll(PushAll(list, entries), hidden) == PushAll(RemoveAll(list, hidden), entries)
    ensures (forall v :: v in entries ==> v in hidden) ==>
              RemoveAll(PushAll(list, entries), hidden) == RemoveAll(list, hidden)
  {
    if entries != [] {
      var rest := entries[..|entries| - 1];
      assert entries == rest + [entries[|entries| - 1]];
      PushAllApart(list, rest, hidden);
      PushApart(PushAll(list, rest), entries[|entries| - 1], hidden);
    }
  }

  // ---- Execution and ledger

  function ToCidr(address: string, family: Action.Family): string {
    if family.IPv4? then address + "/32" else address + "/128"
  }

  /** The two families' notations never meet. */
  lemma {:induction false} FamiliesAreApart(a: string, b: string)
    ensures ToCidr(a, Action.IPv4) != ToCidr(b, Action.IPv6)
  {
    var x, y := ToCidr(a, Action.IPv4), ToCidr(b, Action.IPv6);
    assert x[|x| - 1] == '2' && y[|y| - 1] == '8';
  }

  /** The addresses an execution was given; an empty one counts as none. */
  datatype IpValues = IpValues(ipv4: Option<string>, ipv6: Option<string>)

  function Entry(v: Option<string>, family: Action.Family): Option<string> {
    if Present(v) then Some(ToCidr(v.value, family)) else None
  }

  function Adds(ips: IpValues): seq<string> {
    OneOf(Entry(ips.ipv4, Action.IPv4)) + OneOf(Entry(ips.ipv6, Action.IPv6))
  }

  /** Only what the action itself wrote last, and only for the families it writes now. */
  function Removes(owned: Action.Owned, ips: IpValues): seq<string> {
    (if Present(ips.ipv4) then OneOf(owned.ipv4) else []) + (if Present(ips.ipv6) then OneOf(owned.ipv6) else [])
  }

  function ChangeOf(selector: Selector, owned: Action.Owned, ips: IpValues): Change {
    Change(selector, Removes(owned, ips), Adds(ips))
  }

  /** The event recorded for a successful execution. */
  function RecordOf(ips: IpValues): Action.Event {
    Action.FirewallRuleApplied(Entry(ips.ipv4, Action.IPv4), Entry(ips.ipv6, Action.IPv6))
  }

  /** Builds the change of an execution, family by family; without any address it is refused. */
  method Plan(selector: Selector, previous: Action.Owned, ips: IpValues) returns (change: Option<Change>)
    ensures change.None? <==> !Present(ips.ipv4) && !Present(ips.ipv6)
    ensures change.Some? ==> change.value == ChangeOf(selector, previous, ips)
    ensures change.Some? ==>
              var v4, v6 := ips.ipv4.Some? && ips.ipv4.value != "", ips.ipv6.Some? && ips.ipv6.value != "";
              && change.value.selector == selector
              && change.value.add == (if v4 then [ips.ipv4.value + "/32"] else [])
                                     + (if v6 then [ips.ipv6.value + "/128"] else [])
              && change.value.remove == (if v4 && previous.ipv4.Some? then [previous.ipv4.value] else [])
                                        + (if v6 && previous.ipv6.Some? then [previous.ipv6.value] else [])
  {
    var add: seq<string>, remove: seq<string> := [], [];
    var updates := 0;
    if Present(ips.ipv4) {
      add := add + [ToCidr(ips.ipv4.value, Action.IPv4)];
      if previous.ipv4.Some? {
        remove := remove + [previous.ipv4.value];
      }
      updates := updates + 1;
    }
    if Present(ips.ipv6) {
      add := add + [ToCidr(ips.ipv6.value, Action.IPv6)];
      if previous.ipv6.Some? {
        remove := remove + [previous.ipv6.value];
      }
      updates := updates + 1;
    }
    if updates == 0 {
      return None;
    }
    change := Some(Change(selector, remove, add));
  }

  /** The rules, the action with its ledger, and everything the action ever wrote. */
  datatype Ledger = Ledger(rules: seq<Rule>, action: Action.State, ever: set<string>)

  /** A successful, recorded execution of the action, or anybody else's update of any rule. */
  datatype Step = Ours(ips: IpValues) | Theirs(change: Change)

  predicate Possible(selector: Selector, l: Ledger, step: Step) {
    step.Ours? ==>
      && (Present(step.ips.ipv4) || Present(step.ips.ipv6))
      && Updated(l.rules, ChangeOf(selector, l.action.owned, step.ips)).Some?
  }

  function OrSame(rules: seq<Rule>, c: Change): seq<Rule> {
    var u := Updated(rules, c);
    if u.Some? then u.value else rules
  }

  function Next(selector: Selector, l: Ledger, step: Step): Ledger {
    match step
    case Ours(ips) =>
      Ledger(OrSame(l.rules, ChangeOf(selector, l.action.owned, ips)), Action.Reduce(l.action, RecordOf(ips)),
              l.ever + ElementsOf(Adds(ips)))
    case Theirs(c) => l.(rules := OrSame(l.rules, c))
  }

  /** The others stay clear of what the action writes over the whole run. */
  ghost predicate IsRun(selector: Selector, run: seq<Ledger>, steps: seq<Step>, ours: set<string>) {
    && |run| == |steps| + 1
    && run[0].ever == {} && run[0].action.owned == Action.Owned(None, None)
    && MatchFirewallRule(run[0].rules, selector).Resolved?
    && (forall i :: 0 <= i < |steps| ==>
          Possible(selector, run[i], steps[i]) && run[i + 1] == Next(selector, run[i], steps[i]))
    && (forall i, v :: 0 <= i < |steps| && steps[i].Ours? && v in Adds(steps[i].ips) ==> v in ours)
    && (forall i, v :: 0 <= i < |steps| && steps[i].Theirs? && v in steps[i].change.remove + steps[i].change.add ==>
          v !in ours)
  }

  predicate Owns(owned: Action.Owned, v: string) {
    owned.ipv4 == Some(v) || owned.ipv6 == Some(v)
  }

  ghost predicate Written(v: string, family: Action.Family) {
    exists a: string :: v == ToCidr(a, family)
  }

  /** Of all that was ever written, the list holds exactly the current entry of each family. */
  ghost predicate Books(list: seq<string>, owned: Action.Owned, ever: set<string>) {
    && (forall v :: v in ever ==> (v in list <==> Owns(owned, v)))
    && (forall v :: Owns(owned, v) ==> v in ever)
    && (forall v :: v in ever ==> v != "")
    && (owned.ipv4.Some? ==> Written(owned.ipv4.value, Action.IPv4))
    && (owned.ipv6.Some? ==> Written(owned.ipv6.value, Action.IPv6))
  }

  ghost predicate LedgerInv(k: nat, l: Ledger)
    requires k < |l.rules|
  {
    Books(ListOf(l.rules[k]), l.action.owned, l.ever)
  }

  /** Updating never changes what selectors look at. */
  lemma {:induction false} UpdateKeepsSelection(rules: seq<Rule>, c: Change, s: Selector)
    ensures |OrSame(rules, c)| == |rules|
    ensures MatchFirewallRule(OrSame(rules, c), s) == MatchFirewallRule(rules, s)
  {
    var rules' := OrSame(rules, c);
    forall i | 0 <= i < |rules| ensures Selects(s, rules'[i]) <==> Selects(s, rules[i]) {
    }
    SameSelection(rules, rules', s);
  }

  lemma {:induction false} SameSelection(rules: seq<Rule>, rules': seq<Rule>, s: Selector)
    requires |rules| == |rules'| && forall i :: 0 <= i < |rules| ==> (Selects(s, rules[i]) <==> Selects(s, rules'[i]))
    ensures Selected(rules, s) == Selected(rules', s)
  {
    if rules != [] {
      SameSelection(rules[..|rules| - 1], rules'[..|rules'| - 1], s);
    }
  }

  function OwnedAfter(owned: Action.Owned, ips: IpValues): Action.Owned {
    Action.Reduce(Action.INITIAL.(owned := owned), RecordOf(ips)).owned
  }

  lemma {:induction false} ListedAfter(list: seq<string>, owned: Action.Owned, ever: set<string>, ips: IpValues,
          v: string)
    requires Books(list, owned, ever) && v in ever + ElementsOf(Adds(ips))
    ensures v != "" && (v in Rewritten(list, Removes(owned, ips), Adds(ips)) <==> Owns(OwnedAfter(owned, ips), v))
  {
    CidrIsWritten(ips);
    RewrittenHas(list, Removes(owned, ips), Adds(ips), v);
    OwnedApart(owned, ips, v);
  }

  lemma {:induction false} OwnedWasWritten(owned: Action.Owned, ever: set<string>, ips: IpValues, v: string)
    requires forall u :: Owns(owned, u) ==> u in ever
    requires Owns(OwnedAfter(owned, ips), v)
    ensures v in ever + ElementsOf(Adds(ips))
  {
    if !Owns(owned, v) {
      assert v in Adds(ips);
    }
  }

  lemma {:induction false} BooksAfter(list: seq<string>, owned: Action.Owned, ever: set<string>, ips: IpValues)
    requires Books(list, owned, ever)
    ensures Books(Rewritten(list, Removes(owned, ips), Adds(ips)), OwnedAfter(owned, ips), ever + ElementsOf(Adds(ips)))
  {
    var list', owned', ever' :=
      Rewritten(list, Removes(owned, ips), Adds(ips)), OwnedAfter(owned, ips), ever + ElementsOf(Adds(ips));
    forall v | v in ever' ensures v != "" && (v in list' <==> Owns(owned', v)) {
      ListedAfter(list, owned, ever, ips, v);
    }
    forall v | Owns(owned', v) ensures v in ever' {
      OwnedWasWritten(owned, ever, ips, v);
    }
    OwnedIsWritten(owned, ips);
  }

  lemma {:induction false} UpdatedAt(rules: seq<Rule>, c: Change, k: nat)
    requires MatchFirewallRule(rules, c.selector) == Resolved(k)
    ensures |OrSame(rules, c)| == |rules| && ListOf(OrSame(rules, c)[k]) == Rewritten(ListOf(rules[k]), c.remove, c.add)
  {
  }

  lemma {:induction false} OwnedInParts(action: Action.State, ips: IpValues)
    ensures Action.Reduce(action, RecordOf(ips)).owned == OwnedAfter(action.owned, ips)
  {
  }

  lemma {:induction false} OursInParts(selector: Selector, k: nat, l: Ledger, ips: IpValues)
    requires MatchFirewallRule(l.rules, selector) == Resolved(k)
    ensures var l' := Next(selector, l, Ours(ips));
            && |l'.rules| == |l.rules|
            && ListOf(l'.rules[k]) == Rewritten(ListOf(l.rules[k]), Removes(l.action.owned, ips), Adds(ips))
            && l'.action.owned == OwnedAfter(l.action.owned, ips)
            && l'.ever == l.ever + ElementsOf(Adds(ips))
  {
    UpdatedAt(l.rules, ChangeOf(selector, l.action.owned, ips), k);
    OwnedInParts(l.action, ips);
  }

  lemma {:induction false} OursKeepsLedger(selector: Selector, k: nat, l: Ledger, ips: IpValues)
    requires MatchFirewallRule(l.rules, selector) == Resolved(k) && LedgerInv(k, l)
    ensures var l' := Next(selector, l, Ours(ips));
            |l'.rules| == |l.rules| && LedgerInv(k, l')
  {
    OursInParts(selector, k, l, ips);
    BooksAfter(ListOf(l.rules[k]), l.action.owned, l.ever, ips);
  }

  lemma {:induction false} OwnedIsWritten(owned: Action.Owned, ips: IpValues)
    requires owned.ipv4.Some? ==> Written(owned.ipv4.value, Action.IPv4)
    requires owned.ipv6.Some? ==> Written(owned.ipv6.value, Action.IPv6)
    ensures var owned' := OwnedAfter(owned, ips);
            && (owned'.ipv4.Some? ==> Written(owned'.ipv4.value, Action.IPv4))
            && (owned'.ipv6.Some? ==> Written(owned'.ipv6.value, Action.IPv6))
  {
    CidrIsWritten(ips);
  }

  lemma {:induction false} CidrIsWritten(ips: IpValues)
    ensures Present(ips.ipv4) ==> Written(ToCidr(ips.ipv4.value, Action.IPv4), Action.IPv4)
    ensures Present(ips.ipv6) ==> Written(ToCidr(ips.ipv6.value, Action.IPv6), Action.IPv6)
    ensures forall v :: v in Adds(ips) ==> v != ""
  {
  }

  lemma {:induction false} OwnedApart(owned: Action.Owned, ips: IpValues, v: string)
    requires owned.ipv4.Some? ==> Written(owned.ipv4.value, Action.IPv4)
    requires owned.ipv6.Some? ==> Written(owned.ipv6.value, Action.IPv6)
    ensures var owned' := OwnedAfter(owned, ips);
            Owns(owned', v) <==> v in Adds(ips) || (Owns(owned, v) && v !in Removes(owned, ips))
  {
    if owned.ipv4.Some? && owned.ipv6.Some? {
      var a: string :| owned.ipv4.value == ToCidr(a, Action.IPv4);
      var b: string :| owned.ipv6.value == ToCidr(b, Action.IPv6);
      FamiliesAreApart(a, b);
    }
  }

  lemma {:induction false} TheirsKeepsLedger(selector: Selector, k: nat, l: Ledger, c: Change)
    requires MatchFirewallRule(l.rules, selector) == Resolved(k) && LedgerInv(k, l)
    requires forall v :: v in c.remove + c.add ==> v !in l.ever
    ensures var l' := Next(selector, l, Theirs(c));
            |l'.rules| == |l.rules| && LedgerInv(k, l')
  {
    var l' := Next(selector, l, Theirs(c));
    forall v | v in l.ever ensures v in ListOf(l'.rules[k]) <==> v in ListOf(l.rules[k]) {
      RewrittenHas(ListOf(l.rules[k]), c.remove, c.add, v);
      assert v in c.remove ==> v in c.remove + c.add;
      assert v in c.add ==> v in c.remove + c.add;
    }
  }

  lemma {:induction false} EverIsOurs(selector: Selector, run: seq<Ledger>, steps: seq<Step>, ours: set<string>, i: nat)
    requires IsRun(selector, run, steps, ours) && i <= |steps|
    ensures run[i].ever <= ours
    decreases i
  {
    if i > 0 {
      EverIsOurs(selector, run, steps, ours, i - 1);
    }
  }

  /** After any number of executions, interleaved with any updates of others that stay clear of the action's
      entries: the selector still resolves to the same rule, and of all the entries the action ever wrote that
      rule holds exactly the ones its ledger says it owns, one per family. */
  lemma {:induction false} LedgerHolds(selector: Selector, run: seq<Ledger>, steps: seq<Step>, ours: set<string>,
          i: nat)
    requires IsRun(selector, run, steps, ours) && i <= |steps|
    ensures MatchFirewallRule(run[i].rules, selector) == MatchFirewallRule(run[0].rules, selector)
    ensures LedgerInv(MatchFirewallRule(run[0].rules, selector).index, run[i])
    decreases i
  {
    if i > 0 {
      LedgerHolds(selector, run, steps, ours, i - 1);
      EverIsOurs(selector, run, steps, ours, i - 1);
      LedgerStep(selector, MatchFirewallRule(run[0].rules, selector).index, run[i - 1], steps[i - 1], ours);
    }
  }

  lemma {:induction false} LedgerStep(selector: Selector, k: nat, l: Ledger, step: Step, ours: set<string>)
    requires MatchFirewallRule(l.rules, selector) == Resolved(k) && LedgerInv(k, l) && Possible(selector, l, step)
    requires l.ever <= ours
    requires step.Theirs? ==> forall v :: v in step.change.remove + step.change.add ==> v !in ours
    ensures var l' := Next(selector, l, step);
            MatchFirewallRule(l'.rules, selector) == Resolved(k) && LedgerInv(k, l')
  {
    match step
    case Ours(ips) =>
      UpdateKeepsSelection(l.rules, ChangeOf(selector, l.action.owned, ips), selector);
      OursKeepsLedger(selector, k, l, ips);
    case Theirs(c) =>
      UpdateKeepsSelection(l.rules, c, selector);
      TheirsKeepsLedger(selector, k, l, c);
  }

  // ---- Nobody else notices

  /** The rules as they would be without the action: the others' updates alone. */
  function OthersOnly(rules: seq<Rule>, steps: seq<Step>): seq<Rule> {
    if steps == [] then rules else
      var before := OthersOnly(rules, steps[..|steps| - 1]);
      if steps[|steps| - 1].Theirs? then OrSame(before, steps[|steps| - 1].change) else before
  }

  /** The same rule, apart from the hidden entries of the list that selectors of its direction write. */
  predicate SameApart(r: Rule, r': Rule, hidden: set<string>) {
    && r.direction == r'.direction && r.protocol == r'.protocol && r.port == r'.port && r.description == r'.description
    && (if r.direction == "in" then r.destinationIps == r'.destinationIps else r.sourceIps == r'.sourceIps)
    && RemoveAll(ListOf(r), hidden) == RemoveAll(ListOf(r'), hidden)
  }

  ghost predicate RulesApart(k: nat, rules: seq<Rule>, rules': seq<Rule>, hidden: set<string>) {
    && |rules| == |rules'|
    && (forall i :: 0 <= i < |rules| && i != k ==> rules[i] == rules'[i])
    && (k < |rules| ==> SameApart(rules[k], rules'[k], hidden))
  }

  lemma {:induction false} RewrittenApart(list: seq<string>, list': seq<string>, remove: seq<string>, add: seq<string>,
          hidden: set<string>)
    requires RemoveAll(list, hidden) == RemoveAll(list', hidden)
    requires forall v :: v in remove || v in add ==> v !in hidden
    ensures RemoveAll(Rewritten(list, remove, add), hidden) == RemoveAll(Rewritten(list', remove, add), hidden)
  {
    var gone := ElementsOf(Given(remove));
    forall v | v in Given(add) ensures v !in hidden {
      GivenHas(add, v);
    }
    PushAllApart(RemoveAll(list, gone), Given(add), hidden);
    PushAllApart(RemoveAll(list', gone), Given(add), hidden);
    RemoveAllCommutes(list, gone, hidden);
    RemoveAllCommutes(list', gone, hidden);
  }

  lemma {:induction false} RewrittenHidden(list: seq<string>, remove: seq<string>, add: seq<string>,
          hidden: set<string>)
    requires forall v :: v in remove || v in add ==> v in hidden
    ensures RemoveAll(Rewritten(list, remove, add), hidden) == RemoveAll(list, hidden)
  {
    var gone := ElementsOf(Given(remove));
    forall v | v in Given(add) ensures v in hidden {
      GivenHas(add, v);
    }
    forall v | v in Given(remove) ensures v in hidden {
      GivenHas(remove, v);
    }
    PushAllApart(RemoveAll(list, gone), Given(add), hidden);
    RemoveAllCommutes(list, gone, hidden);
  }

  lemma {:induction false} SameSelectionApart(k: nat, rules: seq<Rule>, rules': seq<Rule>, hidden: set<string>,
          s: Selector)
    requires RulesApart(k, rules, rules', hidden)
    ensures MatchFirewallRule(rules, s) == MatchFirewallRule(rules', s)
  {
    forall i | 0 <= i < |rules| ensures Selects(s, rules[i]) <==> Selects(s, rules'[i]) {
    }
    SameSelection(rules, rules', s);
  }

  lemma {:induction false} TheirsApart(k: nat, rules: seq<Rule>, rules': seq<Rule>, hidden: set<string>, c: Change)
    requires RulesApart(k, rules, rules', hidden)
    requires forall v :: v in c.remove || v in c.add ==> v !in hidden
    ensures RulesApart(k, OrSame(rules, c), OrSame(rules', c), hidden)
  {
    SameSelectionApart(k, rules, rules', hidden, c.selector);
    if MatchFirewallRule(rules, c.selector) == Resolved(k) {
      RewrittenApart(ListOf(rules[k]), ListOf(rules'[k]), c.remove, c.add, hidden);
    }
  }

  lemma {:induction false} OursApart(k: nat, rules: seq<Rule>, rules': seq<Rule>, hidden: set<string>, c: Change)
    requires RulesApart(k, rules, rules', hidden) && MatchFirewallRule(rules, c.selector) == Resolved(k)
    requires forall v :: v in c.remove || v in c.add ==> v in hidden
    ensures RulesApart(k, OrSame(rules, c), rules', hidden)
  {
    RewrittenHidden(ListOf(rules[k]), c.remove, c.add, hidden);
  }

  lemma {:induction false} RemovesAreOurs(k: nat, l: Ledger, ips: IpValues, ours: set<string>)
    requires k < |l.rules| && LedgerInv(k, l) && l.ever <= ours
    ensures forall v :: v in Removes(l.action.owned, ips) ==> v in ours
  {
  }

  lemma {:induction false} ApartStep(selector: Selector, k: nat, l: Ledger, others: seq<Rule>, step: Step,
          ours: set<string>)
    requires MatchFirewallRule(l.rules, selector) == Resolved(k) && LedgerInv(k, l) && l.ever <= ours
    requires RulesApart(k, l.rules, others, ours)
    requires step.Ours? ==> forall v :: v in Adds(step.ips) ==> v in ours
    requires step.Theirs? ==> forall v :: v in step.change.remove + step.change.add ==> v !in ours
    ensures var others' := if step.Theirs? then OrSame(others, step.change) else others;
            RulesApart(k, Next(selector, l, step).rules, others', ours)
  {
    match step
    case Ours(ips) =>
      RemovesAreOurs(k, l, ips, ours);
      OursApart(k, l.rules, others, ours, ChangeOf(selector, l.action.owned, ips));
    case Theirs(c) =>
      assert forall v :: v in c.remove || v in c.add ==> v in c.remove + c.add;
      TheirsApart(k, l.rules, others, ours, c);
  }

  lemma {:induction false} ApartAtFirst(k: nat, rules: seq<Rule>, hidden: set<string>)
    ensures RulesApart(k, rules, rules, hidden)
  {
  }

  /** Every other rule, and in the action's own rule every entry it never wrote, in order, is as if the action
      had never run. */
  lemma {:induction false} OthersDoNotNotice(selector: Selector, run: seq<Ledger>, steps: seq<Step>, ours: set<string>,
          i: nat)
    requires IsRun(selector, run, steps, ours) && i <= |steps|
    ensures RulesApart(MatchFirewallRule(run[0].rules, selector).index, run[i].rules,
                       OthersOnly(run[0].rules, steps[..i]), ours)
    decreases i
  {
    hide Next, RulesApart, LedgerInv, MatchFirewallRule, Possible;
    if i == 0 {
      ApartAtFirst(MatchFirewallRule(run[0].rules, selector).index, run[0].rules, ours);
    } else {
      OthersDoNotNotice(selector, run, steps, ours, i - 1);
      LedgerHolds(selector, run, steps, ours, i - 1);
      EverIsOurs(selector, run, steps, ours, i - 1);
      assert steps[..i][..i - 1] == steps[..i - 1];
      var others := OthersOnly(run[0].rules, steps[..i - 1]);
      ApartStep(selector, MatchFirewallRule(run[0].rules, selector).index, run[i - 1], others, steps[i - 1], ours);
    }
  }
}

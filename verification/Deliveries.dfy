/** The delivery history of a device's address changes, derived from the providers' events. */
module Deliveries {
  import opened Options
  import opened TraefikProvider

  const TOO_LARGE := "too_large"

  /** An event as stored: with its sequence number. */
  datatype Stored = Stored(number: nat, event: Event)

  datatype Kind = Delivered | Combined

  datatype Stage = Published | Applied | Failed

  datatype ActionRef = ActionRef(actionId: string, providerId: string, group: string)

  datatype Provider = Provider(name: Option<string>, events: seq<Stored>)

  /** How far the version went; nothing for a combined change. */
  datatype Progress = Progress(stage: Option<Stage>, at: Option<int>, error: Option<string>)

  datatype Row = Row(action: ActionRef, providerName: Option<string>, kind: Kind, progress: Progress,
                     version: Option<nat>)

  // ---- Sorting by sequence number

  function InsertEvent(e: Stored, es: seq<Stored>): (r: seq<Stored>)
    ensures multiset(r) == multiset(es) + multiset{e}
  {
    if es == [] || es[|es| - 1].number <= e.number then es + [e]
    else
      assert es == es[..|es| - 1] + [es[|es| - 1]];
      InsertEvent(e, es[..|es| - 1]) + [es[|es| - 1]]
  }

  function SortEvents(es: seq<Stored>): (r: seq<Stored>)
    ensures multiset(r) == multiset(es)
  {
    if es == [] then [] else
      assert es == es[..|es| - 1] + [es[|es| - 1]];
      InsertEvent(es[|es| - 1], SortEvents(es[..|es| - 1]))
  }

  ghost predicate InOrder(es: seq<Stored>) {
    forall i, j :: 0 <= i < j < |es| ==> es[i].number < es[j].number
  }

  ghost predicate DistinctNumbers(es: seq<Stored>) {
    forall i, j :: 0 <= i < j < |es| ==> es[i].number != es[j].number
  }

  lemma {:induction false} SameElements(a: seq<Stored>, b: seq<Stored>)
    requires multiset(a) == multiset(b)
    ensures |a| == |b| && forall x :: x in a <==> x in b
  {
    assert |multiset(a)| == |a| && |multiset(b)| == |b|;
    forall x ensures x in a <==> x in b {
      assert x in multiset(a) <==> x in multiset(b);
    }
  }

  lemma {:induction false} HighestGoesLast(es: seq<Stored>, last: Stored)
    requires InOrder(es) && forall x :: x in es ==> x.number < last.number
    ensures InOrder(es + [last])
  {
    forall i | 0 <= i < |es| ensures es[i].number < last.number {
      assert es[i] in es;
    }
  }

  lemma {:induction false} InsertedHas(e: Stored, es: seq<Stored>, x: Stored)
    ensures x in InsertEvent(e, es) <==> x == e || x in es
  {
    assert x in InsertEvent(e, es) <==> x in multiset(InsertEvent(e, es));
    assert x in es <==> x in multiset(es);
  }

  lemma {:induction false} InsertKeepsOrder(e: Stored, es: seq<Stored>)
    requires InOrder(es) && forall x :: x in es ==> x.number != e.number
    ensures InOrder(InsertEvent(e, es))
  {
    if es == [] || es[|es| - 1].number <= e.number {
      forall x | x in es ensures x.number < e.number {
        var i :| 0 <= i < |es| && es[i] == x;
      }
      HighestGoesLast(es, e);
    } else {
      var rest, last := es[..|es| - 1], es[|es| - 1];
      forall x | x in rest ensures x in es && x.number < last.number {
        var i :| 0 <= i < |rest| && rest[i] == x;
        assert es[i] == x;
      }
      InsertKeepsOrder(e, rest);
      forall x | x in InsertEvent(e, rest) ensures x.number < last.number {
        InsertedHas(e, rest, x);
      }
      HighestGoesLast(InsertEvent(e, rest), last);
    }
  }

  lemma {:induction false} SortedInOrder(es: seq<Stored>)
    requires DistinctNumbers(es)
    ensures InOrder(SortEvents(es))
  {
    if es != [] {
      var n := |es| - 1;
      SortedInOrder(es[..n]);
      SameElements(SortEvents(es[..n]), es[..n]);
      InsertKeepsOrder(es[n], SortEvents(es[..n]));
    }
  }

  lemma {:induction false} DropLast(a: seq<Stored>)
    requires a != []
    ensures multiset(a[..|a| - 1]) == multiset(a) - multiset{a[|a| - 1]}
  {
    assert a == a[..|a| - 1] + [a[|a| - 1]];
  }

  lemma {:induction false} LastIsHighest(a: seq<Stored>, b: seq<Stored>)
    requires a != [] && b != [] && InOrder(a) && InOrder(b) && multiset(a) == multiset(b)
    ensures a[|a| - 1] == b[|b| - 1]
  {
    SameElements(a, b);
    assert a[|a| - 1] in b && b[|b| - 1] in a;
  }

  lemma {:induction false} OrderIsUnique(a: seq<Stored>, b: seq<Stored>)
    requires InOrder(a) && InOrder(b) && multiset(a) == multiset(b)
    ensures a == b
  {
    SameElements(a, b);
    if a != [] {
      var n := |a| - 1;
      LastIsHighest(a, b);
      DropLast(a);
      DropLast(b);
      OrderIsUnique(a[..n], b[..n]);
      assert a == a[..n] + [a[n]] && b == b[..n] + [b[n]];
    }
  }

  /** However the store returns them, the sorted events are the same. */
  lemma {:induction false} InputOrderIsIrrelevant(a: seq<Stored>, b: seq<Stored>)
    requires DistinctNumbers(a) && DistinctNumbers(b) && multiset(a) == multiset(b)
    ensures SortEvents(a) == SortEvents(b)
  {
    SortedInOrder(a);
    SortedInOrder(b);
    OrderIsUnique(SortEvents(a), SortEvents(b));
  }

  // ---- What a row says

  predicate Delivers(e: Event, change: ChangeId) {
    (e.SnapshotPublished? || e.SnapshotPublishFailed?) && e.correlationId == Caused(change)
  }

  predicate Absorbs(e: Event, change: ChangeId) {
    (e.SnapshotPublished? || e.SnapshotPublishFailed?) && change in e.absorbed
  }

  /** The event a row is about. */
  datatype Source = Source(kind: Kind, stored: Stored)

  /** One event's turn, with only some of the changes it absorbed looked at yet. */
  function Turn(before: Option<Source>, e: Stored, absorbed: seq<ChangeId>, change: ChangeId): Option<Source> {
    if Delivers(e.event, change) then Some(Source(Delivered, e))
    else if before.Some? && before.value.kind.Delivered? then before
    else if change in absorbed then Some(Source(Combined, e))
    else before
  }

  function AbsorbedBy(e: Event): seq<ChangeId> {
    if e.SnapshotPublished? || e.SnapshotPublishFailed? then e.absorbed else []
  }

  function SourceOf(es: seq<Stored>, change: ChangeId): Option<Source> {
    if es == [] then None else
      var e := es[|es| - 1];
      Turn(SourceOf(es[..|es| - 1], change), e, AbsorbedBy(e.event), change)
  }

  ghost predicate IsLast(es: seq<Stored>, e: Stored, wanted: Stored -> bool) {
    exists i :: 0 <= i < |es| && es[i] == e && wanted(e) && forall j :: i < j < |es| ==> !wanted(es[j])
  }

  ghost predicate NoneIs(es: seq<Stored>, wanted: Stored -> bool) {
    forall i :: 0 <= i < |es| ==> !wanted(es[i])
  }

  function Delivering(change: ChangeId): Stored -> bool {
    (e: Stored) => Delivers(e.event, change)
  }

  function Absorbing(change: ChangeId): Stored -> bool {
    (e: Stored) => Absorbs(e.event, change)
  }

  lemma {:induction false} LastGrows(es: seq<Stored>, e: Stored, wanted: Stored -> bool)
    ensures wanted(e) ==> IsLast(es + [e], e, wanted)
    ensures forall f :: IsLast(es, f, wanted) && !wanted(e) ==> IsLast(es + [e], f, wanted)
    ensures NoneIs(es, wanted) && !wanted(e) ==> NoneIs(es + [e], wanted)
  {
    var all := es + [e];
    if wanted(e) {
      assert all[|es|] == e;
    }
    forall f | IsLast(es, f, wanted) && !wanted(e) ensures IsLast(all, f, wanted) {
      var i :| 0 <= i < |es| && es[i] == f && wanted(f) && forall j :: i < j < |es| ==> !wanted(es[j]);
      assert all[i] == f;
    }
  }

  /** A row is about the last event whose correlation id is the change, else about the last that absorbed it,
      and there is none exactly if no event names the change. */
  lemma {:induction false} SourceIsLast(es: seq<Stored>, change: ChangeId)
    ensures var s := SourceOf(es, change);
            && (s.Some? && s.value.kind.Delivered? ==> IsLast(es, s.value.stored, Delivering(change)))
            && (s.Some? && s.value.kind.Combined? ==>
                  NoneIs(es, Delivering(change)) && IsLast(es, s.value.stored, Absorbing(change)))
            && (s.None? ==> NoneIs(es, Delivering(change)) && NoneIs(es, Absorbing(change)))
  {
    if es != [] {
      var n := |es| - 1;
      SourceIsLast(es[..n], change);
      assert es == es[..n] + [es[n]];
      LastGrows(es[..n], es[n], Delivering(change));
      LastGrows(es[..n], es[n], Absorbing(change));
    }
  }

  predicate Reports(e: Event, version: nat) {
    e.SnapshotApplied? && e.version >= version
  }

  /** The first event that reports this or a newer version as applied. */
  function FirstApplied(es: seq<Stored>, version: nat): Option<int> {
    if es == [] then None else
      var earlier := FirstApplied(es[..|es| - 1], version);
      var e := es[|es| - 1].event;
      if earlier.Some? then earlier
      else if Reports(e, version) then Some(e.appliedAt) else None
  }

  /** The last event that reports exactly this version as failed. */
  function LastFailed(es: seq<Stored>, version: nat): Option<(int, string)> {
    if es == [] then None else
      var e := es[|es| - 1].event;
      if e.SnapshotApplyFailed? && e.version == version then Some((e.appliedAt, e.reason))
      else LastFailed(es[..|es| - 1], version)
  }

  function ProgressOf(es: seq<Stored>, e: Stored): Progress {
    match e.event
    case SnapshotPublished(_, _, _, publishedAt) =>
      var done, failed := FirstApplied(es, e.number), LastFailed(es, e.number);
      if done.Some? then Progress(Some(Applied), done, None)
      else if failed.Some? then Progress(Some(Failed), Some(failed.value.0), Some(failed.value.1))
      else Progress(Some(Stage.Published), Some(publishedAt), None)
    case SnapshotPublishFailed(_, _, failedAt) => Progress(Some(Failed), Some(failedAt), Some(TOO_LARGE))
    case _ => Progress(None, None, None)
  }

  function VersionOf(e: Stored): Option<nat> {
    if e.event.SnapshotPublished? then Some(e.number) else None
  }

  function RowFor(action: ActionRef, name: Option<string>, es: seq<Stored>, s: Source): Row {
    var progress := if s.kind.Delivered? then ProgressOf(es, s.stored) else Progress(None, None, None);
    Row(action, name, s.kind, progress, VersionOf(s.stored))
  }

  function RowOf(action: ActionRef, name: Option<string>, es: seq<Stored>, change: ChangeId): Option<Row> {
    var s := SourceOf(es, change);
    if s.Some? then Some(RowFor(action, name, es, s.value)) else None
  }

  function RowsOf(actions: seq<ActionRef>, providers: map<string, Provider>, change: ChangeId): seq<Row> {
    if actions == [] then [] else
      var action := actions[|actions| - 1];
      var row := if action.providerId in providers then
                   var provider := providers[action.providerId];
                   RowOf(action, provider.name, SortEvents(provider.events), change)
                 else None;
      RowsOf(actions[..|actions| - 1], providers, change) + (if row.Some? then [row.value] else [])
  }

  // ---- What it says, event by event

  /** The first event that reports the version, or a newer one, as applied. */
  ghost predicate AppliedFirst(es: seq<Stored>, version: nat, i: int) {
    && 0 <= i < |es| && es[i].event.SnapshotApplied? && version <= es[i].event.version
    && forall j :: 0 <= j < i && es[j].event.SnapshotApplied? ==> es[j].event.version < version
  }

  ghost predicate NeverApplied(es: seq<Stored>, version: nat) {
    forall j :: 0 <= j < |es| && es[j].event.SnapshotApplied? ==> es[j].event.version < version
  }

  /** The last event that reports exactly the version as failed. */
  ghost predicate FailedLast(es: seq<Stored>, version: nat, i: int) {
    && 0 <= i < |es| && es[i].event.SnapshotApplyFailed? && es[i].event.version == version
    && forall j :: i < j < |es| && es[j].event.SnapshotApplyFailed? ==> es[j].event.version != version
  }

  ghost predicate NeverFailed(es: seq<Stored>, version: nat) {
    forall j :: 0 <= j < |es| && es[j].event.SnapshotApplyFailed? ==> es[j].event.version != version
  }

  lemma {:induction false} FirstAppliedSays(es: seq<Stored>, version: nat)
    ensures var at := FirstApplied(es, version);
            && (at.None? <==> NeverApplied(es, version))
            && (at.Some? ==> exists i :: AppliedFirst(es, version, i) && at.value == es[i].event.appliedAt)
  {
    if es != [] {
      var n := |es| - 1;
      FirstAppliedSays(es[..n], version);
      assert forall j :: 0 <= j < n ==> es[..n][j] == es[j];
      if i :| AppliedFirst(es[..n], version, i) && FirstApplied(es[..n], version) == Some(es[..n][i].event.appliedAt) {
        assert AppliedFirst(es, version, i);
      } else if FirstApplied(es, version).Some? {
        assert AppliedFirst(es, version, n);
      }
    }
  }

  lemma {:induction false} LastFailedSays(es: seq<Stored>, version: nat)
    ensures var failed := LastFailed(es, version);
            && (failed.None? <==> NeverFailed(es, version))
            && (failed.Some? ==>
                  exists i :: FailedLast(es, version, i) && failed.value == (es[i].event.appliedAt, es[i].event.reason))
  {
    if es != [] {
      var n := |es| - 1;
      LastFailedSays(es[..n], version);
      assert forall j :: 0 <= j < n ==> es[..n][j] == es[j];
      if es[n].event.SnapshotApplyFailed? && es[n].event.version == version {
        assert FailedLast(es, version, n);
      } else if i :| && FailedLast(es[..n], version, i)
                     && LastFailed(es[..n], version) == Some((es[..n][i].event.appliedAt, es[..n][i].event.reason)) {
        assert FailedLast(es, version, i);
      }
    }
  }

  /** How far a published version went: applied, since the first report of it or of a newer one; else failed, since
      the last report of that with its reason; else published, since its own time. */
  ghost predicate Went(p: Progress, es: seq<Stored>, version: nat, publishedAt: int) {
    if !NeverApplied(es, version) then
      exists i :: AppliedFirst(es, version, i) && p == Progress(Some(Applied), Some(es[i].event.appliedAt), None)
    else if !NeverFailed(es, version) then
      exists i :: && FailedLast(es, version, i)
                  && p == Progress(Some(Failed), Some(es[i].event.appliedAt), Some(es[i].event.reason))
    else p == Progress(Some(Stage.Published), Some(publishedAt), None)
  }

  /** What a row shows of a change that this event was caused by. */
  ghost predicate ShowsOwn(r: Row, es: seq<Stored>, e: Stored) {
    && r.kind == Delivered
    && (e.event.SnapshotPublished? ==>
          r.version == Some(e.number) && Went(r.progress, es, e.number, e.event.publishedAt))
    && (e.event.SnapshotPublishFailed? ==>
          r.version == None && r.progress == Progress(Some(Failed), Some(e.event.failedAt), Some("too_large")))
  }

  /** What a row shows of a change that went into this event of a later one. */
  ghost predicate ShowsAbsorbed(r: Row, e: Stored) {
    && r.kind == Combined && r.progress == Progress(None, None, None)
    && r.version == if e.event.SnapshotPublished? then Some(e.number) else None
  }

  predicate OwnOf(e: Event, change: ChangeId) {
    || (e.SnapshotPublished? && e.correlationId == Caused(change))
    || (e.SnapshotPublishFailed? && e.correlationId == Caused(change))
  }

  predicate AbsorbedIn(e: Event, change: ChangeId) {
    (e.SnapshotPublished? && change in e.absorbed) || (e.SnapshotPublishFailed? && change in e.absorbed)
  }

  /** A row's content, from the events in order: it is about the last event the change caused, else about the last
      one that absorbed it. */
  ghost predicate RowShows(r: Row, action: ActionRef, name: Option<string>, es: seq<Stored>, change: ChangeId) {
    && r.action == action && r.providerName == name
    && exists i :: && 0 <= i < |es|
                   && if OwnOf(es[i].event, change) then
                        ShowsOwn(r, es, es[i]) && forall j :: i < j < |es| ==> !OwnOf(es[j].event, change)
                      else
                        && AbsorbedIn(es[i].event, change) && ShowsAbsorbed(r, es[i])
                        && (forall j :: 0 <= j < |es| ==> !OwnOf(es[j].event, change))
                        && (forall j :: i < j < |es| ==> !AbsorbedIn(es[j].event, change))
  }

  ghost predicate NeverNamed(es: seq<Stored>, change: ChangeId) {
    forall i :: 0 <= i < |es| ==> !OwnOf(es[i].event, change) && !AbsorbedIn(es[i].event, change)
  }

  lemma {:induction false} NamingSays(e: Event, change: ChangeId)
    ensures Delivers(e, change) <==> OwnOf(e, change)
    ensures Absorbs(e, change) <==> AbsorbedIn(e, change)
  {
  }

  lemma {:induction false} ProgressWent(es: seq<Stored>, e: Stored)
    requires e.event.SnapshotPublished?
    ensures Went(ProgressOf(es, e), es, e.number, e.event.publishedAt)
  {
    hide AppliedFirst, FailedLast, NeverApplied, NeverFailed, FirstApplied, LastFailed;
    FirstAppliedSays(es, e.number);
    LastFailedSays(es, e.number);
  }

  /** The row of a change, if some event names it, and none otherwise. */
  lemma {:induction false} RowSays(action: ActionRef, name: Option<string>, es: seq<Stored>, change: ChangeId)
    ensures var r := RowOf(action, name, es, change);
            && (r.None? <==> NeverNamed(es, change))
            && (r.Some? ==> RowShows(r.value, action, name, es, change))
  {
    SourceIsLast(es, change);
    forall i | 0 <= i < |es|
      ensures Delivers(es[i].event, change) <==> OwnOf(es[i].event, change)
      ensures Absorbs(es[i].event, change) <==> AbsorbedIn(es[i].event, change)
    {
      NamingSays(es[i].event, change);
    }
    var source := SourceOf(es, change);
    hide SourceOf, Delivers, Absorbs, ProgressOf, Went, VersionOf;
    if source.Some? && source.value.kind.Delivered? {
      var e := source.value.stored;
      assert IsLast(es, e, Delivering(change));
      OwnRowShows(action, name, es, e);
    } else if source.Some? {
      AbsorbedRowShows(action, name, es, source.value.stored);
    }
  }

  lemma {:induction false} OwnRowShows(action: ActionRef, name: Option<string>, es: seq<Stored>, e: Stored)
    ensures ShowsOwn(RowFor(action, name, es, Source(Delivered, e)), es, e)
  {
    hide Went;
    if e.event.SnapshotPublished? {
      ProgressWent(es, e);
    }
  }

  lemma {:induction false} AbsorbedRowShows(action: ActionRef, name: Option<string>, es: seq<Stored>, e: Stored)
    ensures ShowsAbsorbed(RowFor(action, name, es, Source(Combined, e)), e)
  {
  }

  /** The rows of a change, in the order of the actions: one for each action whose provider is there and has an event
      that names the change, and for no other. */
  ghost predicate RowsShow(rows: seq<Row>, actions: seq<ActionRef>, providers: map<string, Provider>,
          change: ChangeId) {
    if actions == [] then rows == [] else
      var n := |actions| - 1;
      var action := actions[n];
      if action.providerId in providers && !NeverNamed(SortEvents(providers[action.providerId].events), change) then
        && rows != [] && RowsShow(rows[..|rows| - 1], actions[..n], providers, change)
        && RowShows(rows[|rows| - 1], action, providers[action.providerId].name,
                    SortEvents(providers[action.providerId].events), change)
      else RowsShow(rows, actions[..n], providers, change)
  }

  lemma {:induction false} RowsSay(actions: seq<ActionRef>, providers: map<string, Provider>, change: ChangeId)
    ensures RowsShow(RowsOf(actions, providers, change), actions, providers, change)
  {
    if actions != [] {
      var n := |actions| - 1;
      RowsSay(actions[..n], providers, change);
      if actions[n].providerId in providers {
        var provider := providers[actions[n].providerId];
        RowSays(actions[n], provider.name, SortEvents(provider.events), change);
      }
      hide RowShows, NeverNamed, RowOf, SortEvents;
      assert RowsOf(actions[..n], providers, change) + [] == RowsOf(actions[..n], providers, change);
    }
  }

  // ---- The loops

  method FindApplied(applied: seq<Stored>, ghost es: seq<Stored>, version: nat) returns (at: Option<int>)
    requires applied == OnlyApplied(es)
    ensures at == FirstApplied(es, version)
    ensures at.None? <==> NeverApplied(es, version)
    ensures at.Some? ==> exists i :: AppliedFirst(es, version, i) && at.value == es[i].event.appliedAt
  {
    FirstAppliedSays(es, version);
    hide NeverApplied, AppliedFirst;
    FirstAppliedSkips(es, version);
    for i := 0 to |applied|
      invariant FirstApplied(applied[..i], version).None?
    {
      assert applied[..i + 1][..i] == applied[..i];
      if applied[i].event.version >= version {
        FirstAppliedStays(applied, version, i + 1);
        return Some(applied[i].event.appliedAt);
      }
    }
    assert applied[..|applied|] == applied;
    at := None;
  }

  function OnlyApplied(es: seq<Stored>): (r: seq<Stored>)
    ensures forall i :: 0 <= i < |r| ==> r[i].event.SnapshotApplied?
  {
    if es == [] then [] else
      OnlyApplied(es[..|es| - 1]) + (if es[|es| - 1].event.SnapshotApplied? then [es[|es| - 1]] else [])
  }

  lemma {:induction false} FirstAppliedAppend(es: seq<Stored>, e: Stored, version: nat)
    ensures FirstApplied(es + [e], version) ==
            if FirstApplied(es, version).None? && Reports(e.event, version) then Some(e.event.appliedAt)
            else FirstApplied(es, version)
  {
    assert (es + [e])[..|es|] == es;
  }

  lemma {:induction false} FirstAppliedSkips(es: seq<Stored>, version: nat)
    ensures FirstApplied(OnlyApplied(es), version) == FirstApplied(es, version)
  {
    if es != [] {
      var rest, last := es[..|es| - 1], es[|es| - 1];
      FirstAppliedSkips(rest, version);
      if last.event.SnapshotApplied? {
        FirstAppliedAppend(OnlyApplied(rest), last, version);
      } else {
        assert OnlyApplied(rest) + [] == OnlyApplied(rest);
      }
    }
  }

  lemma {:induction false} FirstAppliedStays(es: seq<Stored>, version: nat, k: nat)
    requires k <= |es| && FirstApplied(es[..k], version).Some?
    ensures FirstApplied(es, version) == FirstApplied(es[..k], version)
  {
    if k < |es| {
      assert es[..|es| - 1][..k] == es[..k];
      FirstAppliedStays(es[..|es| - 1], version, k);
    } else {
      assert es[..k] == es;
    }
  }

  function OnlyFailed(es: seq<Stored>): (r: seq<Stored>)
    ensures forall i :: 0 <= i < |r| ==> r[i].event.SnapshotApplyFailed?
  {
    if es == [] then [] else
      OnlyFailed(es[..|es| - 1]) + (if es[|es| - 1].event.SnapshotApplyFailed? then [es[|es| - 1]] else [])
  }

  lemma {:induction false} LastFailedAppend(es: seq<Stored>, e: Stored, version: nat)
    ensures LastFailed(es + [e], version) ==
            if e.event.SnapshotApplyFailed? && e.event.version == version then Some((e.event.appliedAt, e.event.reason))
            else LastFailed(es, version)
  {
    assert (es + [e])[..|es|] == es;
  }

  lemma {:induction false} LastFailedSkips(es: seq<Stored>, version: nat)
    ensures LastFailed(OnlyFailed(es), version) == LastFailed(es, version)
  {
    if es != [] {
      var rest, last := es[..|es| - 1], es[|es| - 1];
      LastFailedSkips(rest, version);
      if last.event.SnapshotApplyFailed? {
        LastFailedAppend(OnlyFailed(rest), last, version);
      } else {
        assert OnlyFailed(rest) + [] == OnlyFailed(rest);
      }
    }
  }

  method FindFailed(applyFailed: seq<Stored>, ghost es: seq<Stored>, version: nat)
    returns (failed: Option<(int, string)>)
    requires applyFailed == OnlyFailed(es)
    ensures failed == LastFailed(es, version)
    ensures failed.None? <==> NeverFailed(es, version)
    ensures failed.Some? ==>
              exists i :: FailedLast(es, version, i) && failed.value == (es[i].event.appliedAt, es[i].event.reason)
  {
    LastFailedSays(es, version);
    hide NeverFailed, FailedLast;
    LastFailedSkips(es, version);
    failed := None;
    for i := 0 to |applyFailed|
      invariant failed == LastFailed(applyFailed[..i], version)
    {
      assert applyFailed[..i + 1][..i] == applyFailed[..i];
      if applyFailed[i].event.version == version {
        failed := Some((applyFailed[i].event.appliedAt, applyFailed[i].event.reason));
      }
    }
    assert applyFailed[..|applyFailed|] == applyFailed;
  }

  method FilterEvents(es: seq<Stored>) returns (applied: seq<Stored>, applyFailed: seq<Stored>)
    ensures applied == OnlyApplied(es) && applyFailed == OnlyFailed(es)
  {
    applied, applyFailed := [], [];
    for i := 0 to |es|
      invariant applied == OnlyApplied(es[..i]) && applyFailed == OnlyFailed(es[..i])
    {
      assert es[..i + 1][..i] == es[..i];
      if es[i].event.SnapshotApplied? {
        applied := applied + [es[i]];
      } else if es[i].event.SnapshotApplyFailed? {
        applyFailed := applyFailed + [es[i]];
      }
    }
    assert es[..|es|] == es;
  }

  /** Later events win; a delivered row is never replaced by a combined one. */
  function Put(rows: map<ChangeId, Row>, wanted: set<ChangeId>, change: ChangeId, row: Row): map<ChangeId, Row> {
    if change !in wanted || (change in rows && rows[change].kind.Delivered? && row.kind.Combined?) then rows
    else rows[change := row]
  }

  /** The rows so far: those of the wanted changes that have a source. */
  ghost predicate RowsAre(rows: map<ChangeId, Row>, wanted: set<ChangeId>, action: ActionRef, name: Option<string>,
          es: seq<Stored>, source: ChangeId -> Option<Source>) {
    && (forall c :: c in rows <==> c in wanted && source(c).Some?)
    && (forall c :: c in rows ==> rows[c] == RowFor(action, name, es, source(c).value))
  }

  ghost function SourcesIn(es: seq<Stored>): ChangeId -> Option<Source> {
    (c: ChangeId) => SourceOf(es, c)
  }

  ghost function Midway(es: seq<Stored>, e: Stored, absorbed: seq<ChangeId>): ChangeId -> Option<Source> {
    (c: ChangeId) => Turn(SourceOf(es, c), e, absorbed, c)
  }

  lemma {:induction false} TurnStarts(rows: map<ChangeId, Row>, wanted: set<ChangeId>, action: ActionRef,
          name: Option<string>, es: seq<Stored>, before: seq<Stored>, e: Stored)
    requires RowsAre(rows, wanted, action, name, es, SourcesIn(before))
    requires e.event.SnapshotPublished? || e.event.SnapshotPublishFailed?
    ensures var rows' := if e.event.correlationId.Caused?
                         then
                           var row := RowFor(action, name, es, Source(Delivered, e));
                           Put(rows, wanted, e.event.correlationId.change, row)
                         else rows;
            RowsAre(rows', wanted, action, name, es, Midway(before, e, []))
  {
  }

  lemma {:induction false} TurnContinues(rows: map<ChangeId, Row>, wanted: set<ChangeId>, action: ActionRef,
          name: Option<string>, es: seq<Stored>, before: seq<Stored>, e: Stored, absorbed: seq<ChangeId>,
          change: ChangeId)
    requires RowsAre(rows, wanted, action, name, es, Midway(before, e, absorbed))
    ensures RowsAre(Put(rows, wanted, change, RowFor(action, name, es, Source(Combined, e))), wanted, action, name, es,
            Midway(before, e, absorbed + [change]))
  {
  }

  lemma {:induction false} TurnEnds(rows: map<ChangeId, Row>, wanted: set<ChangeId>, action: ActionRef,
          name: Option<string>, es: seq<Stored>, i: nat)
    requires i < |es|
    requires RowsAre(rows, wanted, action, name, es, Midway(es[..i], es[i], AbsorbedBy(es[i].event)))
    ensures RowsAre(rows, wanted, action, name, es, SourcesIn(es[..i + 1]))
  {
    assert es[..i + 1][..i] == es[..i];
    forall c ensures SourcesIn(es[..i + 1])(c) == Midway(es[..i], es[i], AbsorbedBy(es[i].event))(c) {
    }
  }

  lemma {:induction false} NoTurn(rows: map<ChangeId, Row>, wanted: set<ChangeId>, action: ActionRef,
          name: Option<string>, es: seq<Stored>, before: seq<Stored>, e: Stored)
    requires RowsAre(rows, wanted, action, name, es, SourcesIn(before))
    requires !e.event.SnapshotPublished? && !e.event.SnapshotPublishFailed?
    ensures RowsAre(rows, wanted, action, name, es, Midway(before, e, []))
  {
    forall c ensures SourcesIn(before)(c) == Midway(before, e, [])(c) {
    }
  }

  method FindProgress(applied: seq<Stored>, applyFailed: seq<Stored>, ghost es: seq<Stored>, e: Stored)
    returns (progress: Progress)
    requires applied == OnlyApplied(es) && applyFailed == OnlyFailed(es)
    requires e.event.SnapshotPublished? || e.event.SnapshotPublishFailed?
    ensures progress == ProgressOf(es, e)
  {
    if e.event.SnapshotPublishFailed? {
      return Progress(Some(Failed), Some(e.event.failedAt), Some(TOO_LARGE));
    }
    var done := FindApplied(applied, es, e.number);
    var failed := FindFailed(applyFailed, es, e.number);
    progress := if done.Some? then Progress(Some(Applied), done, None)
                else if failed.Some? then Progress(Some(Failed), Some(failed.value.0), Some(failed.value.1))
                else Progress(Some(Stage.Published), Some(e.event.publishedAt), None);
  }

  /** The rows of one action. */
  method ActionRows(action: ActionRef, provider: Provider, wanted: set<ChangeId>) returns (rows: map<ChangeId, Row>)
    ensures RowsAre(rows, wanted, action, provider.name, SortEvents(provider.events),
                    SourcesIn(SortEvents(provider.events)))
  {
    var es := SortEvents(provider.events);
    var applied, applyFailed := FilterEvents(es);
    rows := map[];
    for i := 0 to |es|
      invariant RowsAre(rows, wanted, action, provider.name, es, SourcesIn(es[..i]))
    {
      var e := es[i];
      if e.event.SnapshotPublished? || e.event.SnapshotPublishFailed? {
        var progress := FindProgress(applied, applyFailed, es, e);
        var version := if e.event.SnapshotPublished? then Some(e.number) else None;
        TurnStarts(rows, wanted, action, provider.name, es, es[..i], e);
        if e.event.correlationId.Caused? {
          rows :=
            Put(rows, wanted, e.event.correlationId.change, Row(action, provider.name, Delivered, progress, version));
        }
        rows := PutAbsorbed(rows, wanted, action, provider.name, es, i, version);
      } else {
        NoTurn(rows, wanted, action, provider.name, es, es[..i], e);
      }
      TurnEnds(rows, wanted, action, provider.name, es, i);
    }
    assert es[..|es|] == es;
  }

  method PutAbsorbed(before: map<ChangeId, Row>, wanted: set<ChangeId>, action: ActionRef, name: Option<string>,
          es: seq<Stored>, i: nat, version: Option<nat>)
    returns (rows: map<ChangeId, Row>)
    requires i < |es| && (es[i].event.SnapshotPublished? || es[i].event.SnapshotPublishFailed?)
    requires version == VersionOf(es[i])
    requires RowsAre(before, wanted, action, name, es, Midway(es[..i], es[i], []))
    ensures RowsAre(rows, wanted, action, name, es, Midway(es[..i], es[i], AbsorbedBy(es[i].event)))
  {
    rows := before;
    var absorbed := es[i].event.absorbed;
    for k := 0 to |absorbed|
      invariant RowsAre(rows, wanted, action, name, es, Midway(es[..i], es[i], absorbed[..k]))
    {
      TurnContinues(rows, wanted, action, name, es, es[..i], es[i], absorbed[..k], absorbed[k]);
      assert absorbed[..k] + [absorbed[k]] == absorbed[..k + 1];
      rows := Put(rows, wanted, absorbed[k], Row(action, name, Combined, Progress(None, None, None), version));
    }
    assert absorbed[..|absorbed|] == absorbed;
  }

  /** Every change with its rows: per action at most one, in the order of the actions. */
  method DeriveDeliveries(changes: seq<ChangeId>, actions: seq<ActionRef>, providers: map<string, Provider>)
    returns (result: map<ChangeId, seq<Row>>)
    ensures forall c :: c in result <==> c in changes
    ensures forall c :: c in result ==> result[c] == RowsOf(actions, providers, c)
    ensures forall c :: c in result ==> RowsShow(result[c], actions, providers, c)
  {
    hide RowsShow;
    forall c ensures RowsShow(RowsOf(actions, providers, c), actions, providers, c) {
      RowsSay(actions, providers, c);
    }
    var wanted := set c | c in changes;
    result := map c | c in wanted :: [];
    for i := 0 to |actions|
      invariant result.Keys == wanted
      invariant forall c :: c in result ==> result[c] == RowsOf(actions[..i], providers, c)
    {
      assert actions[..i + 1][..i] == actions[..i];
      if actions[i].providerId !in providers {
        continue;
      }
      var provider := providers[actions[i].providerId];
      var rows := ActionRows(actions[i], provider, wanted);
      ghost var es := SortEvents(provider.events);
      assert forall c :: c in wanted ==> (c in rows <==> RowOf(actions[i], provider.name, es, c).Some?)
                                         && (c in rows ==> rows[c] == RowOf(actions[i], provider.name, es, c).value);
      result := AddRows(result, rows);
    }
    assert actions[..|actions|] == actions;
  }

  method AddRows(before: map<ChangeId, seq<Row>>, rows: map<ChangeId, Row>) returns (result: map<ChangeId, seq<Row>>)
    requires rows.Keys <= before.Keys
    ensures result.Keys == before.Keys
    ensures forall c :: c in before ==> result[c] == before[c] + (if c in rows then [rows[c]] else [])
  {
    result := before;
    var rest := rows.Keys;
    while rest != {}
      invariant rest <= rows.Keys && result.Keys == before.Keys
      invariant forall c :: c in before ==> result[c] == before[c] + (if c in rows && c !in rest then [rows[c]] else [])
      decreases rest
    {
      var c :| c in rest;
      result := result[c := result[c] + [rows[c]]];
      rest := rest - {c};
    }
  }
}

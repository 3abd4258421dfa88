/** As a provider's stream grows, the rows of the delivery history only move forward. */
module HistoryStability {
  import opened Options
  import opened TraefikProvider
  import opened Deliveries
  import Publication
  import Causes

  function Numbered(h: seq<Event>): (es: seq<Stored>)
    ensures |es| == |h|
  {
    if h == [] then [] else Numbered(h[..|h| - 1]) + [Stored(|h|, h[|h| - 1])]
  }

  lemma {:induction false} NumberedAt(h: seq<Event>, i: nat)
    requires i < |h|
    ensures Numbered(h)[i] == Stored(i + 1, h[i])
  {
    if i < |h| - 1 {
      NumberedAt(h[..|h| - 1], i);
    }
  }

  lemma {:induction false} NumberedInOrder(h: seq<Event>)
    ensures InOrder(Numbered(h))
  {
    forall i, j | 0 <= i < j < |h| ensures Numbered(h)[i].number < Numbered(h)[j].number {
      NumberedAt(h, i);
      NumberedAt(h, j);
    }
  }

  /** A gap-free stream is put back in order, however it was read. */
  lemma {:induction false} SortingRestoresStream(h: seq<Event>, es: seq<Stored>)
    requires multiset(es) == multiset(Numbered(h))
    ensures SortEvents(es) == Numbered(h)
  {
    var ns := Numbered(h);
    NumberedInOrder(h);
    forall i, j | 0 <= i < j < |es| ensures es[i].number != es[j].number {
      NoTwins(h, es, i, j);
    }
    SortedInOrder(es);
    OrderIsUnique(SortEvents(es), ns);
  }

  lemma {:induction false} NoTwins(h: seq<Event>, es: seq<Stored>, i: nat, j: nat)
    requires multiset(es) == multiset(Numbered(h)) && i < j < |es|
    ensures es[i].number != es[j].number
  {
    var ns := Numbered(h);
    SameElements(es, ns);
    if es[i].number == es[j].number {
      assert es[i] in ns && es[j] in ns;
      var k :| 0 <= k < |ns| && ns[k] == es[i];
      var l :| 0 <= l < |ns| && ns[l] == es[j];
      NumberedAt(h, k);
      NumberedAt(h, l);
      assert es[i] == es[j] == ns[k];
      AtLeastTwo(es, i, j);
      NumberedInOrder(h);
      AtMostOne(ns, k);
    }
  }

  lemma {:induction false} AtLeastTwo(es: seq<Stored>, i: nat, j: nat)
    requires i < j < |es| && es[i] == es[j]
    ensures multiset(es)[es[i]] >= 2
  {
    assert es == es[..j] + [es[j]] + es[j + 1..];
    assert es[..j][i] == es[i];
    assert es[i] in multiset(es[..j]);
  }

  lemma {:induction false} AtMostOne(ns: seq<Stored>, k: nat)
    requires k < |ns| && InOrder(ns)
    ensures multiset(ns)[ns[k]] == 1
  {
    assert ns == ns[..k] + [ns[k]] + ns[k + 1..];
    assert ns[k] !in ns[..k] && ns[k] !in ns[k + 1..];
  }

  function Rank(stage: Option<Stage>): nat {
    match stage
    case None => 0
    case Some(Published) => 1
    case Some(Failed) => 2
    case Some(Applied) => 3
  }

  /** The same row, further on: applied, combined and publish-failed rows are frozen, a published one changes
      only by moving on, and a failed one never falls back. */
  predicate Advances(r: Row, r': Row) {
    && r'.action == r.action && r'.providerName == r.providerName && r'.kind == r.kind && r'.version == r.version
    && Rank(r.progress.stage) <= Rank(r'.progress.stage)
    && (r.kind.Combined? || r.version.None? || r.progress.stage == Some(Applied) ==> r' == r)
    && (r.progress.stage == Some(Stage.Published) && r'.progress.stage == r.progress.stage ==> r' == r)
  }

  function RowIn(action: ActionRef, name: Option<string>, h: seq<Event>, change: ChangeId): Option<Row> {
    RowOf(action, name, Numbered(h), change)
  }

  lemma {:induction false} SourceHasKind(es: seq<Stored>, change: ChangeId)
    ensures var s := SourceOf(es, change);
            s.Some? ==> if s.value.kind.Delivered? then Delivers(s.value.stored.event, change)
                        else Absorbs(s.value.stored.event, change)
  {
    SourceIsLast(es, change);
    var s := SourceOf(es, change);
    if s.Some? && s.value.kind.Combined? {
      assert IsLast(es, s.value.stored, Absorbing(change));
    }
  }

  lemma {:induction false} NamingIsNamed(e: Event, change: ChangeId)
    ensures Delivers(e, change) || Absorbs(e, change) <==> change in Names(e)
  {
  }

  lemma {:induction false} SourceIsNamed(h: seq<Event>, change: ChangeId)
    requires SourceOf(Numbered(h), change).Some?
    ensures Causes.Named(h)[change] >= 1
  {
    var e := h[|h| - 1];
    NamingIsNamed(e, change);
    if change in Names(e) {
      assert change in multiset(Names(e));
    } else {
      SourceIsNamed(h[..|h| - 1], change);
    }
  }

  lemma {:induction false} SourceStays(h: seq<Event>, e: Event, change: ChangeId)
    requires SourceOf(Numbered(h), change).Some? && Causes.Named(h + [e])[change] <= 1
    ensures SourceOf(Numbered(h + [e]), change) == SourceOf(Numbered(h), change)
  {
    hide Causes.Named;
    SourceIsNamed(h, change);
    Causes.NamedAppend(h, e);
    NamingIsNamed(e, change);
    assert multiset(Names(e))[change] == 0;
    assert change !in Names(e);
    assert (h + [e])[..|h|] == h;
  }

  lemma {:induction false} ProgressAdvances(es: seq<Stored>, more: Stored, s: Stored)
    requires s.event.SnapshotPublished? || s.event.SnapshotPublishFailed?
    ensures var p, p' := ProgressOf(es, s), ProgressOf(es + [more], s);
            && Rank(p.stage) <= Rank(p'.stage)
            && (s.event.SnapshotPublishFailed? || p.stage == Some(Applied) ==> p' == p)
            && (p.stage == p'.stage == Some(Stage.Published) ==> p' == p)
  {
    assert (es + [more])[..|es|] == es;
  }

  /** One more event in the stream. */
  lemma {:induction false} RowAdvances(action: ActionRef, name: Option<string>, h: seq<Event>, e: Event,
          change: ChangeId)
    requires Causes.Named(h + [e])[change] <= 1 && RowIn(action, name, h, change).Some?
    ensures RowIn(action, name, h + [e], change).Some?
    ensures Advances(RowIn(action, name, h, change).value, RowIn(action, name, h + [e], change).value)
  {
    SourceStays(h, e, change);
    var s := SourceOf(Numbered(h), change).value;
    SourceHasKind(Numbered(h), change);
    assert (h + [e])[..|h|] == h;
    ProgressAdvances(Numbered(h), Stored(|h| + 1, e), s.stored);
  }

  lemma {:induction false} AdvancesOn(a: Row, b: Row, c: Row)
    requires Advances(a, b) && Advances(b, c)
    ensures Advances(a, c)
  {
  }

  lemma {:induction false} NamedGrows(h: seq<Event>, k: nat, change: ChangeId)
    requires k <= |h|
    ensures Causes.Named(h[..k])[change] <= Causes.Named(h)[change]
  {
    if k < |h| {
      assert h[..|h| - 1][..k] == h[..k];
      NamedGrows(h[..|h| - 1], k, change);
    } else {
      assert h[..k] == h;
    }
  }

  predicate Follows(r: Option<Row>, r': Option<Row>) {
    r.Some? ==> r'.Some? && Advances(r.value, r'.value)
  }

  lemma {:induction false} FollowsOn(a: Option<Row>, b: Option<Row>, c: Option<Row>)
    requires Follows(a, b) && Follows(b, c)
    ensures Follows(a, c)
  {
    if a.Some? {
      AdvancesOn(a.value, b.value, c.value);
    }
  }

  lemma {:induction false} RowFollows(action: ActionRef, name: Option<string>, h: seq<Event>, e: Event,
          change: ChangeId)
    requires Causes.Named(h + [e])[change] <= 1
    ensures Follows(RowIn(action, name, h, change), RowIn(action, name, h + [e], change))
  {
    if RowIn(action, name, h, change).Some? {
      RowAdvances(action, name, h, e, change);
    }
  }

  /** However much a stream grows, a row stays, keeps its kind and version, and only moves forward, if no
      change is named twice. */
  lemma {:induction false} RowsAdvance(action: ActionRef, name: Option<string>, h: seq<Event>, more: seq<Event>,
          change: ChangeId)
    requires Causes.Named(h + more)[change] <= 1
    ensures Follows(RowIn(action, name, h, change), RowIn(action, name, h + more, change))
  {
    hide RowIn, Follows, Causes.Named;
    if more == [] {
      assert h + more == h;
      Stays(RowIn(action, name, h, change));
    } else {
      var mid, last := h + more[..|more| - 1], more[|more| - 1];
      assert h + more == mid + [last];
      NamedBefore(mid, last, change);
      RowsAdvance(action, name, h, more[..|more| - 1], change);
      RowFollows(action, name, mid, last, change);
      FollowsOn(RowIn(action, name, h, change), RowIn(action, name, mid, change),
                RowIn(action, name, mid + [last], change));
    }
  }

  lemma {:induction false} Stays(r: Option<Row>)
    ensures Follows(r, r)
  {
  }

  lemma {:induction false} NamedBefore(h: seq<Event>, e: Event, change: ChangeId)
    ensures Causes.Named(h)[change] <= Causes.Named(h + [e])[change]
  {
    Causes.NamedAppend(h, e);
  }

  // ---- In the running system

  lemma {:induction false} StepGrows(p: string, fits: Snapshot.Content -> bool, s: Publication.System,
          step: Publication.Step)
    requires Publication.Enabled(p, s, step)
    ensures s.stream <= Publication.Next(p, fits, s, step).stream
  {
    hide Publication.Enabled;
  }

  lemma {:induction false} Chain(streams: seq<seq<Event>>, i: nat, j: nat)
    requires i <= j < |streams|
    requires forall k :: 0 <= k < |streams| - 1 ==> streams[k] <= streams[k + 1]
    ensures streams[i] <= streams[j]
  {
    if i < j {
      Chain(streams, i, j - 1);
      assert streams[j - 1] <= streams[j - 1 + 1];
    }
  }

  lemma {:induction false} StreamGrows(p: string, fits: Snapshot.Content -> bool, run: seq<Publication.System>,
          steps: seq<Publication.Step>, i: nat, j: nat)
    requires Publication.IsRun(p, fits, run, steps) && i <= j <= |steps|
    ensures run[i].stream <= run[j].stream
  {
    var streams := seq(|run|, k requires 0 <= k < |run| => run[k].stream);
    forall k | 0 <= k < |streams| - 1 ensures streams[k] <= streams[k + 1] {
      assert Publication.Follows(p, fits, run, steps, k);
      StepGrows(p, fits, run[k], steps[k]);
    }
    Chain(streams, i, j);
  }

  lemma {:induction false} NamedOnceAt(p: string, fits: Snapshot.Content -> bool, run: seq<Publication.System>,
          steps: seq<Publication.Step>, j: nat, change: ChangeId)
    requires Publication.IsRun(p, fits, run, steps) && Causes.FreshIds(steps) && run[0].tasks == map[] && j <= |steps|
    ensures Causes.Named(run[j].stream)[change] <= 1
  {
    StreamGrows(p, fits, run, steps, j, |steps|);
    Causes.ChangesAreNamedOnce(p, fits, run, steps, change);
    NamedGrows(run[|steps|].stream, |run[j].stream|, change);
    assert run[|steps|].stream[..|run[j].stream|] == run[j].stream;
  }

  /** In every run of the publication machine in which each change has its own id, whatever the races: once a
      change has a row it keeps it, and the row only moves forward. */
  lemma {:induction false} HistoryIsStable(p: string, fits: Snapshot.Content -> bool, run: seq<Publication.System>,
          steps: seq<Publication.Step>, i: nat, j: nat, action: ActionRef, name: Option<string>, change: ChangeId)
    requires Publication.IsRun(p, fits, run, steps) && Causes.FreshIds(steps) && run[0].tasks == map[]
    requires i <= j <= |steps|
    ensures Follows(RowIn(action, name, run[i].stream, change), RowIn(action, name, run[j].stream, change))
  {
    StreamGrows(p, fits, run, steps, i, j);
    NamedOnceAt(p, fits, run, steps, j, change);
    var h, h' := run[i].stream, run[j].stream;
    assert h' == h + h'[|h|..];
    RowsAdvance(action, name, h, h'[|h|..], change);
  }
}

/** The event store and its optimistic concurrency.

The table accepts a row whenever its (stream, number) pair is new; nothing else is checked there.
That every stream nevertheless is a gap-free log whose events each obeyed the rule of their writer
at the moment they were appended follows from how the writers pick the number: the length they read,
plus one. */
module EventStreams {

  /** The unique constraint of the events table; `stream` is the aggregate type and id together. */
  datatype Key = Key(stream: string, number: nat)

  type Table<E> = map<Key, E>

  ghost function Numbers<E>(table: Table<E>, stream: string): (s: set<nat>)
    ensures forall n :: n in s <==> Key(stream, n) in table
  {
    set k | k in table && k.stream == stream :: k.number
  }

  ghost function Greatest(s: set<nat>): (m: nat)
    requires s != {}
    ensures m in s && forall n :: n in s ==> n <= m
  {
    var x :| x in s;
    if s == {x} then x
    else
      assert s == (s - {x}) + {x};
      var y := Greatest(s - {x});
      if x > y then x else y
  }

  ghost function Ascending(s: set<nat>): (r: seq<nat>)
    ensures |r| == |s|
    ensures forall i :: 0 <= i < |r| ==> r[i] in s
  {
    if s == {} then [] else
      var m := Greatest(s);
      assert s == (s - {m}) + {m};
      Ascending(s - {m}) + [m]
  }

  lemma {:induction false} AscendingIsSorted(s: set<nat>)
    ensures forall n :: n in s ==> n in Ascending(s)
    ensures forall i, j :: 0 <= i < j < |Ascending(s)| ==> Ascending(s)[i] < Ascending(s)[j]
  {
    if s != {} {
      var m := Greatest(s);
      AscendingIsSorted(s - {m});
      var r := Ascending(s - {m});
      assert Ascending(s) == r + [m];
      forall n | n in s ensures n in r + [m] {
        assert n == m || n in s - {m};
      }
    }
  }

  /** What a read of the stream returns: its rows by ascending number. */
  ghost function History<E>(table: Table<E>, stream: string): (h: seq<E>)
    ensures |h| == |Numbers(table, stream)|
  {
    var order := Ascending(Numbers(table, stream));
    seq(|order|, i requires 0 <= i < |order| => table[Key(stream, order[i])])
  }

  /** Event i of the stream has number i, and there are no others. */
  ghost predicate GapFree<E>(table: Table<E>, stream: string) {
    forall n: nat :: Key(stream, n) in table <==> 1 <= n <= |Numbers(table, stream)|
  }

  class PostgresEventStore<E> {
    var table: Table<E>

    constructor ()
      ensures table == map[]
    {
      table := map[];
    }

    /** The insert: a duplicate number is the only reason for a ConcurrencyError. */
    method Append(stream: string, expected: nat, event: E) returns (ok: bool)
      modifies this
      ensures ok <==> Key(stream, expected) !in old(table)
      ensures ok ==> table == old(table)[Key(stream, expected) := event]
      ensures !ok ==> table == old(table)
    {
      ok := Key(stream, expected) !in table;
      if ok {
        table := table[Key(stream, expected) := event];
      }
    }

    /** The rows of the stream, ordered by number. */
    method ReadStream(stream: string) returns (h: seq<E>)
      ensures h == History(table, stream)
    {
      var numbers := set k | k in table && k.stream == stream :: k.number;
      assert numbers == Numbers(table, stream);
      h := [];
      var rest := numbers;
      RowsOfAll(table, stream);
      while rest != {}
        invariant rest <= numbers
        invariant Rows(table, stream, rest) + h == History(table, stream)
        decreases rest
      {
        var m := FindGreatest(rest);
        RowsLast(table, stream, rest);
        h := [table[Key(stream, m)]] + h;
        rest := rest - {m};
      }
    }
  }

  /** The rows with the given numbers, ascending. */
  ghost function Rows<E>(table: Table<E>, stream: string, numbers: set<nat>): seq<E>
    requires forall n :: n in numbers ==> Key(stream, n) in table
  {
    if numbers == {} then [] else
      var m := Greatest(numbers);
      Rows(table, stream, numbers - {m}) + [table[Key(stream, m)]]
  }

  lemma {:induction false} RowsLast<E>(table: Table<E>, stream: string, numbers: set<nat>)
    requires numbers != {} && forall n :: n in numbers ==> Key(stream, n) in table
    ensures var m := Greatest(numbers);
            forall h: seq<E> :: Rows(table, stream, numbers) + h ==
                     Rows(table, stream, numbers - {m}) + ([table[Key(stream, m)]] + h)
  {
  }

  lemma {:induction false} RowsByNumber<E>(table: Table<E>, stream: string, numbers: set<nat>)
    requires forall n :: n in numbers ==> Key(stream, n) in table
    ensures |Rows(table, stream, numbers)| == |Ascending(numbers)|
    ensures forall i :: 0 <= i < |Ascending(numbers)| ==>
              Rows(table, stream, numbers)[i] == table[Key(stream, Ascending(numbers)[i])]
  {
    if numbers != {} {
      RowsByNumber(table, stream, numbers - {Greatest(numbers)});
    }
  }

  lemma {:induction false} RowsOfAll<E>(table: Table<E>, stream: string)
    ensures Rows(table, stream, Numbers(table, stream)) + [] == History(table, stream)
  {
    RowsByNumber(table, stream, Numbers(table, stream));
  }

  lemma {:induction false} GreatestIsUnique(s: set<nat>, m: nat)
    requires m in s && forall n :: n in s ==> n <= m
    ensures Greatest(s) == m
  {
    assert Greatest(s) in s;
  }

  method FindGreatest(s: set<nat>) returns (m: nat)
    requires s != {}
    ensures m == Greatest(s)
  {
    m :| m in s;
    var rest := s - {m};
    while rest != {}
      invariant m in s && rest <= s
      invariant forall n :: n in s && n !in rest ==> n <= m
      decreases rest
    {
      var n :| n in rest;
      rest := rest - {n};
      m := if n > m then n else m;
    }
    GreatestIsUnique(s, m);
  }

  lemma {:induction false} AscendingOfPrefix(s: set<nat>, n: nat)
    requires forall k: nat :: k in s <==> 1 <= k <= n
    ensures |Ascending(s)| == n
    ensures forall i :: 0 <= i < n ==> Ascending(s)[i] == i + 1
  {
    if n > 0 {
      assert n in s;
      var m := Greatest(s);
      assert m == n;
      AscendingOfPrefix(s - {m}, n - 1);
      assert Ascending(s) == Ascending(s - {m}) + [m];
    } else {
      assert forall k: nat :: k !in s;
      assert s == {};
    }
  }

  /** In a gap-free stream the i-th event read is the one stored under number i + 1. */
  lemma {:induction false} HistoryByNumber<E>(table: Table<E>, stream: string, i: nat)
    requires GapFree(table, stream) && i < |History(table, stream)|
    ensures Key(stream, i + 1) in table && History(table, stream)[i] == table[Key(stream, i + 1)]
  {
    var s := Numbers(table, stream);
    assert forall n: nat :: n in s <==> Key(stream, n) in table;
    AscendingOfPrefix(s, |s|);
    assert Ascending(s)[i] == i + 1;
  }

  /** Appending under length + 1 extends the stream by exactly this event. */
  lemma {:induction false} NumbersGrow<E>(table: Table<E>, stream: string, event: E)
    requires GapFree(table, stream)
    ensures var n := |History(table, stream)| + 1;
            var table' := table[Key(stream, n) := event];
            Key(stream, n) !in table && GapFree(table', stream) && |History(table', stream)| == n
  {
    var n := |History(table, stream)| + 1;
    var table' := table[Key(stream, n) := event];
    assert Numbers(table', stream) == Numbers(table, stream) + {n};
  }

  lemma {:induction false} AppendExtends<E>(table: Table<E>, stream: string, event: E)
    requires GapFree(table, stream)
    ensures var n := |History(table, stream)| + 1;
            var table' := table[Key(stream, n) := event];
            && Key(stream, n) !in table
            && GapFree(table', stream)
            && History(table', stream) == History(table, stream) + [event]
  {
    var h := History(table, stream);
    var n := |h| + 1;
    var table' := table[Key(stream, n) := event];
    NumbersGrow(table, stream, event);
    hide GapFree, Numbers, History;
    var h' := History(table', stream);
    assert |h'| == n;
    forall i | 0 <= i < n ensures h'[i] == (h + [event])[i] {
      HistoryByNumber(table', stream, i);
      if i < |h| {
        HistoryByNumber(table, stream, i);
      }
    }
  }

  /** A writer between its read and its append. It read `basis` and decided on `event`. */
  datatype Writer<E> = Writer(stream: string, basis: seq<E>, event: E)

  datatype Config<E> = Config(table: Table<E>, writers: map<nat, Writer<E>>)

  datatype Step<E> =
    | Load(writer: nat, stream: string, event: E)
    | Create(writer: nat, stream: string, event: E)  // a new aggregate is appended as number 1 without a read
    | Commit(writer: nat)

  ghost predicate Enabled<E>(guard: (seq<E>, E) -> bool, c: Config<E>, step: Step<E>) {
    match step
    case Load(w, stream, event) => w !in c.writers && guard(History(c.table, stream), event)
    case Create(w, stream, event) => w !in c.writers && guard([], event)
    case Commit(w) => w in c.writers
  }

  ghost function Next<E>(guard: (seq<E>, E) -> bool, c: Config<E>, step: Step<E>): Config<E>
    requires Enabled(guard, c, step)
  {
    match step
    case Load(w, stream, event) => c.(writers := c.writers[w := Writer(stream, History(c.table, stream), event)])
    case Create(w, stream, event) => c.(writers := c.writers[w := Writer(stream, [], event)])
    case Commit(w) => Config(Committed(c.table, c.writers[w]), c.writers - {w})
  }

  function Committed<E>(table: Table<E>, writer: Writer<E>): Table<E> {
    var key := Key(writer.stream, |writer.basis| + 1);
    if key in table then table else table[key := writer.event]
  }

  /** Every event was allowed by the events before it. */
  ghost predicate Legal<E>(guard: (seq<E>, E) -> bool, h: seq<E>) {
    forall i :: 0 <= i < |h| ==> guard(h[..i], h[i])
  }

  ghost predicate Safe<E>(guard: (seq<E>, E) -> bool, c: Config<E>) {
    && (forall stream :: GapFree(c.table, stream))
    && (forall stream :: Legal(guard, History(c.table, stream)))
    && (forall w :: w in c.writers ==>
          && c.writers[w].basis <= History(c.table, c.writers[w].stream)
          && guard(c.writers[w].basis, c.writers[w].event))
  }

  lemma {:induction false} LegalExtends<E>(guard: (seq<E>, E) -> bool, h: seq<E>, event: E)
    requires Legal(guard, h) && guard(h, event)
    ensures Legal(guard, h + [event])
  {
    var h' := h + [event];
    forall i | 0 <= i < |h'| ensures guard(h'[..i], h'[i]) {
      assert h'[..i] == if i < |h| then h[..i] else h;
    }
  }

  lemma {:induction false} OtherStreamsUntouched<E>(table: Table<E>, stream: string, n: nat, event: E, other: string)
    requires other != stream
    ensures var table' := table[Key(stream, n) := event];
            && Numbers(table', other) == Numbers(table, other)
            && History(table', other) == History(table, other)
  {
    assert Numbers(table[Key(stream, n) := event], other) == Numbers(table, other);
  }

  /** A commit that is not rejected comes from a writer that has seen the whole stream. */
  lemma {:induction false} AcceptedMeansUpToDate<E>(guard: (seq<E>, E) -> bool, c: Config<E>, w: nat)
    requires Safe(guard, c) && w in c.writers
    ensures (Key(c.writers[w].stream, |c.writers[w].basis| + 1) !in c.table) <==>
            (c.writers[w].basis == History(c.table, c.writers[w].stream))
  {
    var writer := c.writers[w];
    assert GapFree(c.table, writer.stream);
    var h := History(c.table, writer.stream);
    if Key(writer.stream, |writer.basis| + 1) !in c.table {
      assert |writer.basis| >= |h|;
    }
  }

  /** What an accepted append does to the streams, one by one. */
  lemma {:induction false} AcceptedAppend<E>(guard: (seq<E>, E) -> bool, table: Table<E>, writer: Writer<E>,
          stream: string)
    requires GapFree(table, writer.stream) && GapFree(table, stream) && Legal(guard, History(table, stream))
    requires writer.basis == History(table, writer.stream) && guard(writer.basis, writer.event)
    ensures var table' := table[Key(writer.stream, |writer.basis| + 1) := writer.event];
            && GapFree(table', stream)
            && Legal(guard, History(table', stream))
            && History(table, stream) <= History(table', stream)
  {
    if stream == writer.stream {
      AppendExtends(table, stream, writer.event);
      LegalExtends(guard, writer.basis, writer.event);
    } else {
      OtherStreamsUntouched(table, writer.stream, |writer.basis| + 1, writer.event, stream);
    }
  }

  lemma {:induction false} CommitKeepsStream<E>(guard: (seq<E>, E) -> bool, c: Config<E>, w: nat, stream: string)
    requires Safe(guard, c) && w in c.writers
    ensures var table' := Committed(c.table, c.writers[w]);
            && GapFree(table', stream)
            && Legal(guard, History(table', stream))
            && History(c.table, stream) <= History(table', stream)
  {
    var writer := c.writers[w];
    AcceptedMeansUpToDate(guard, c, w);
    assert GapFree(c.table, stream) && Legal(guard, History(c.table, stream));
    if Key(writer.stream, |writer.basis| + 1) !in c.table {
      assert GapFree(c.table, writer.stream);
      AcceptedAppend(guard, c.table, writer, stream);
    }
  }

  lemma {:induction false} CommitSafe<E>(guard: (seq<E>, E) -> bool, c: Config<E>, w: nat)
    requires Safe(guard, c) && w in c.writers
    ensures Safe(guard, Next(guard, c, Commit(w)))
  {
    forall stream
      ensures GapFree(Committed(c.table, c.writers[w]), stream)
      ensures Legal(guard, History(Committed(c.table, c.writers[w]), stream))
      ensures History(c.table, stream) <= History(Committed(c.table, c.writers[w]), stream)
    {
      CommitKeepsStream(guard, c, w, stream);
    }
  }

  lemma {:induction false} StepSafe<E>(guard: (seq<E>, E) -> bool, c: Config<E>, step: Step<E>)
    requires Safe(guard, c) && Enabled(guard, c, step)
    ensures Safe(guard, Next(guard, c, step))
  {
    if step.Commit? {
      CommitSafe(guard, c, step.writer);
    }
  }

  ghost predicate IsRun<E>(guard: (seq<E>, E) -> bool, run: seq<Config<E>>, steps: seq<Step<E>>) {
    && |run| == |steps| + 1
    && run[0] == Config(map[], map[])
    && (forall i :: 0 <= i < |steps| ==>
          Enabled(guard, run[i], steps[i]) && run[i + 1] == Next(guard, run[i], steps[i]))
  }

  /** Whatever writers race, every stream stays gap-free, and every event in it was allowed by its
      writer's rule applied to exactly the events that precede it. */
  lemma {:induction false} StreamsStayLegal<E>(guard: (seq<E>, E) -> bool, run: seq<Config<E>>, steps: seq<Step<E>>)
    requires IsRun(guard, run, steps)
    ensures Safe(guard, run[|steps|])
    decreases |steps|
  {
    if |steps| == 0 {
      assert forall stream: string :: Numbers(run[0].table, stream) == {};
    } else {
      var k := |steps| - 1;
      StreamsStayLegal(guard, run[..k + 1], steps[..k]);
      StepSafe(guard, run[k], steps[k]);
    }
  }
}

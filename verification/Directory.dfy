/** The agent's output directory and the replacement of its files. */
module Directory {
  import opened Options
  import opened Ordering

  type Byte(==, !new, 0)

  type Bytes = seq<Byte>

  /** A regular file, or anything else that can carry a name. */
  datatype Node = File(content: Bytes) | Other

  type Dir = map<string, Node>

  datatype Output = Output(name: string, content: Bytes)

  predicate HasSuffix(name: string, suffix: string) {
    |suffix| <= |name| && name[|name| - |suffix|..] == suffix
  }

  /** From the last dot on. */
  function Ext(name: string): string {
    if name == [] || name[|name| - 1] == '/' then ""
    else if name[|name| - 1] == '.' then "."
    else
      var e := Ext(name[..|name| - 1]);
      if e == "" then "" else e + [name[|name| - 1]]
  }

  predicate ManagedExt(name: string) {
    Ext(name) in {".yml", ".yaml", ".toml"}
  }

  /** What a name ends in from its last dot on, if there is no slash behind it. */
  lemma {:induction false} ExtOf(stem: string, ext: string)
    requires ext != [] && ext[0] == '.' && forall i :: 0 < i < |ext| ==> ext[i] != '.' && ext[i] != '/'
    ensures Ext(stem + ext) == ext
    decreases |ext|
  {
    var name := stem + ext;
    assert name[|name| - 1] == ext[|ext| - 1];
    if |ext| == 1 {
      assert ext == ".";
    } else {
      ExtOf(stem, ext[..|ext| - 1]);
      assert name[..|name| - 1] == stem + ext[..|ext| - 1];
    }
  }

  lemma {:induction false} ExtEnds(name: string) returns (stem: string)
    ensures name == stem + Ext(name)
  {
    if name == [] || name[|name| - 1] == '/' {
      stem := name;
    } else if name[|name| - 1] == '.' {
      stem := name[..|name| - 1];
    } else {
      stem := ExtEnds(name[..|name| - 1]);
      if Ext(name[..|name| - 1]) == "" {
        stem := name;
      } else {
        assert name == name[..|name| - 1] + [name[|name| - 1]];
      }
    }
  }

  ghost predicate Ends(name: string, end: string) {
    exists stem :: name == stem + end
  }

  /** A managed name starts with the prefix and ends in one of three extensions, and that decides what its content has
      to parse as. */
  lemma {:induction false} ManagedSays(prefix: string, name: string)
    ensures ManagedName(prefix, name) <==>
              prefix <= name && (Ends(name, ".yml") || Ends(name, ".yaml") || Ends(name, ".toml"))
    ensures Ends(name, ".yml") ==> Ext(name) == ".yml"
    ensures Ends(name, ".yaml") ==> Ext(name) == ".yaml"
    ensures Ends(name, ".toml") ==> Ext(name) == ".toml"
  {
    var stem := ExtEnds(name);
    forall other | name == other + ".yml" ensures Ext(name) == ".yml" {
      ExtOf(other, ".yml");
    }
    forall other | name == other + ".yaml" ensures Ext(name) == ".yaml" {
      ExtOf(other, ".yaml");
    }
    forall other | name == other + ".toml" ensures Ext(name) == ".toml" {
      ExtOf(other, ".toml");
    }
    hide Ext;
    assert Ends(name, Ext(name));
  }

  /** A name is that of a leftover if it starts with a dot and the prefix and ends in `.tmp`, as the name of every
      temporary file of an output with that prefix does. */
  lemma {:induction false} TempSays(prefix: string, name: string)
    ensures TempName(prefix, name) <==> ['.'] + prefix <= name && Ends(name, ".tmp")
  {
    if HasSuffix(name, ".tmp") {
      assert name == name[..|name| - 4] + ".tmp";
    }
  }

  /** Whether a text parses as a non-empty document of the given kind. */
  const PARSES_AS: (string, Bytes) -> bool

  predicate Validate(name: string, content: Bytes) {
    ManagedExt(name) && PARSES_AS(Ext(name), content)
  }

  predicate ManagedName(prefix: string, name: string) {
    prefix <= name && ManagedExt(name)
  }

  ghost function Managed(d: Dir, prefix: string): (s: set<string>)
    ensures forall n :: n in s <==> n in d && d[n].File? && ManagedName(prefix, n)
  {
    set n | n in d && d[n].File? && ManagedName(prefix, n)
  }

  predicate TempName(prefix: string, name: string) {
    "." + prefix <= name && HasSuffix(name, ".tmp")
  }

  function TempFor(name: string, random: string): string {
    "." + name + "." + random + ".tmp"
  }

  /** What the program does to the directory, one system call at a time; a write of a content is the
      writes of its bytes, since it can be cut short anywhere. */
  datatype Op =
    | Create(name: string)
    | Write(name: string, byte: Byte)
    | Rename(from: string, to: string)
    | Remove(name: string)

  function Do(d: Dir, op: Op): Dir {
    match op
    case Create(n) => d[n := File([])]
    case Write(n, b) => if n in d && d[n].File? then d[n := File(d[n].content + [b])] else d
    case Rename(f, t) => if f in d then (d - {f})[t := d[f]] else d
    case Remove(n) => d - {n}
  }

  function DoAll(d: Dir, ops: seq<Op>): Dir {
    if ops == [] then d else Do(DoAll(d, ops[..|ops| - 1]), ops[|ops| - 1])
  }

  predicate Possible(d: Dir, op: Op) {
    match op
    case Create(n) => n !in d
    case Write(n, _) => n in d
    case Rename(f, t) => f in d && (t in d ==> d[t].File?)
    case Remove(n) => true
  }

  function Writes(temp: string, content: Bytes): (ops: seq<Op>)
    ensures |ops| == |content|
  {
    if content == [] then [] else Writes(temp, content[..|content| - 1]) + [Write(temp, content[|content| - 1])]
  }

  /** Replacing one file: a temporary file next to it, then a rename over it. */
  function Replace(temp: string, out: Output): seq<Op> {
    [Create(temp)] + Writes(temp, out.content) + [Rename(temp, out.name)]
  }

  predicate UpToDate(d: Dir, out: Output) {
    out.name in d && d[out.name] == File(out.content)
  }

  function With(d: Dir, out: Output): Dir {
    d[out.name := File(out.content)]
  }

  /** A file is written only if its content changes. */
  function OneOutput(d: Dir, out: Output, random: string): seq<Op> {
    if UpToDate(d, out) then [] else Replace(TempFor(out.name, random), out)
  }

  /** The directory with the first k outputs in place. */
  function AfterFirst(d: Dir, outputs: seq<Output>, k: nat): Dir
    requires k <= |outputs|
  {
    if k == 0 then d else With(AfterFirst(d, outputs, k - 1), outputs[k - 1])
  }

  function AfterOutputs(d: Dir, outputs: seq<Output>): Dir {
    AfterFirst(d, outputs, |outputs|)
  }

  function FirstOps(d: Dir, outputs: seq<Output>, randoms: seq<string>, k: nat): seq<Op>
    requires |outputs| == |randoms| && k <= |outputs|
  {
    if k == 0 then []
    else FirstOps(d, outputs, randoms, k - 1) + OneOutput(AfterFirst(d, outputs, k - 1), outputs[k - 1], randoms[k - 1])
  }

  function OutputOps(d: Dir, outputs: seq<Output>, randoms: seq<string>): seq<Op>
    requires |outputs| == |randoms|
  {
    FirstOps(d, outputs, randoms, |outputs|)
  }

  predicate WantedFirst(outputs: seq<Output>, k: nat, name: string)
    requires k <= |outputs|
  {
    exists i :: 0 <= i < k && outputs[i].name == name
  }

  predicate Wanted(outputs: seq<Output>, name: string) {
    exists i :: 0 <= i < |outputs| && outputs[i].name == name
  }

  function Removals(names: seq<string>, outputs: seq<Output>): seq<Op> {
    if names == [] then [] else
      var n := |names| - 1;
      Removals(names[..n], outputs) + (if Wanted(outputs, names[n]) then [] else [Remove(names[n])])
  }

  ghost function RemovalOps(d: Dir, prefix: string, outputs: seq<Output>): seq<Op> {
    Removals(Strings(Managed(d, prefix)), outputs)
  }

  ghost function ApplyOps(d: Dir, prefix: string, outputs: seq<Output>, randoms: seq<string>): seq<Op>
    requires |outputs| == |randoms|
  {
    OutputOps(d, outputs, randoms) + RemovalOps(AfterOutputs(d, outputs), prefix, outputs)
  }

  // ---- What the calls do

  lemma {:induction false} DoAllConcat(d: Dir, a: seq<Op>, b: seq<Op>)
    ensures DoAll(d, a + b) == DoAll(DoAll(d, a), b)
  {
    if b == [] {
      assert a + b == a;
    } else {
      DoAllConcat(d, a, b[..|b| - 1]);
      assert (a + b)[..|a + b| - 1] == a + b[..|b| - 1];
    }
  }

  lemma {:induction false} DoAllAppend(d: Dir, ops: seq<Op>, op: Op)
    ensures DoAll(d, ops + [op]) == Do(DoAll(d, ops), op)
  {
    assert (ops + [op])[..|ops|] == ops;
  }

  lemma {:induction false} DoOne(d: Dir, op: Op)
    ensures DoAll(d, [op]) == Do(d, op)
  {
    DoAllAppend(d, [], op);
    assert [] + [op] == [op];
  }

  lemma {:induction false} WriteOne(d: Dir, temp: string, content: Bytes, b: Byte)
    ensures Do(d[temp := File(content)], Write(temp, b)) == d[temp := File(content + [b])]
  {
    var before := d[temp := File(content)];
    assert before[temp := File(content + [b])] == d[temp := File(content + [b])];
  }

  lemma {:induction false} WritesFill(d: Dir, temp: string, content: Bytes)
    requires temp in d && d[temp] == File([])
    ensures DoAll(d, Writes(temp, content)) == d[temp := File(content)]
  {
    if content == [] {
      assert d[temp := File([])] == d;
    } else {
      var rest, b := content[..|content| - 1], content[|content| - 1];
      WritesFill(d, temp, rest);
      DoAllAppend(d, Writes(temp, rest), Write(temp, b));
      WriteOne(d, temp, rest, b);
      assert rest + [b] == content;
    }
  }

  lemma {:induction false} WritesNext(temp: string, content: Bytes, i: nat)
    requires i < |content|
    ensures Writes(temp, content[..i + 1]) == Writes(temp, content[..i]) + [Write(temp, content[i])]
  {
    assert content[..i + 1][..i] == content[..i];
  }

  lemma {:induction false} WritesPrefix(temp: string, content: Bytes, k: nat)
    requires k <= |content|
    ensures Writes(temp, content)[..k] == Writes(temp, content[..k])
  {
    if k < |content| {
      WritesPrefix(temp, content[..|content| - 1], k);
      assert content[..|content| - 1][..k] == content[..k];
    } else {
      assert content[..k] == content;
    }
  }

  /** At every point of a replacement there is at most a partly written temporary file more than before,
      and at the end exactly the one file has its new content. */
  lemma {:induction false} ReplaceStates(d: Dir, temp: string, out: Output, k: nat)
    requires temp !in d && temp != out.name && k <= |Replace(temp, out)|
    ensures var d' := DoAll(d, Replace(temp, out)[..k]);
            && (k == 0 ==> d' == d)
            && (0 < k < |Replace(temp, out)| ==> d' == d[temp := File(out.content[..k - 1])])
            && (k == |Replace(temp, out)| ==> d' == With(d, out))
  {
    var ops := Replace(temp, out);
    var n := |out.content|;
    if 0 < k < |ops| {
      assert ops[..k] == [Create(temp)] + Writes(temp, out.content)[..k - 1];
      WritesPrefix(temp, out.content, k - 1);
      FillStates(d, temp, out.content[..k - 1]);
    } else if k == |ops| {
      assert ops[..k] == ops;
      assert ops[..|ops| - 1] == [Create(temp)] + Writes(temp, out.content);
      FillStates(d, temp, out.content);
      assert (d[temp := File(out.content)] - {temp})[out.name := File(out.content)] == With(d, out);
    }
  }

  lemma {:induction false} DoAllFrom(d: Dir, a: seq<Op>, b: seq<Op>, mid: Dir)
    requires DoAll(d, a) == mid
    ensures DoAll(d, a + b) == DoAll(mid, b)
  {
    DoAllConcat(d, a, b);
  }

  lemma {:induction false} Overwritten(d: Dir, name: string, first: Node, second: Node)
    ensures d[name := first][name := second] == d[name := second]
  {
  }

  lemma {:induction false} FillStates(d: Dir, temp: string, content: Bytes)
    requires temp !in d
    ensures DoAll(d, [Create(temp)] + Writes(temp, content)) == d[temp := File(content)]
  {
    var created := d[temp := File([])];
    DoOne(d, Create(temp));
    DoAllFrom(d, [Create(temp)], Writes(temp, content), created);
    WritesFill(created, temp, content);
    Overwritten(d, temp, File([]), File(content));
  }

  // ---- Crash points

  predicate Same(d: Dir, d': Dir, name: string) {
    (name in d <==> name in d') && (name in d ==> d[name] == d'[name])
  }

  ghost predicate AllInPlace(d: Dir, outputs: seq<Output>) {
    forall i :: 0 <= i < |outputs| ==> UpToDate(d, outputs[i])
  }

  /** What the loader of the templates and the checks before the first write establish. */
  ghost predicate Acceptable(prefix: string, outputs: seq<Output>) {
    && prefix != "" && prefix[0] != '.'
    && (forall i :: 0 <= i < |outputs| ==> prefix <= outputs[i].name && Validate(outputs[i].name, outputs[i].content))
    && (forall i, j :: 0 <= i < j < |outputs| ==> outputs[i].name != outputs[j].name)
  }

  /** The random parts name no existing file, and no output is blocked by something that is no regular file. */
  ghost predicate Unobstructed(d: Dir, outputs: seq<Output>, randoms: seq<string>) {
    && |outputs| == |randoms|
    && (forall i :: 0 <= i < |outputs| ==> TempFor(outputs[i].name, randoms[i]) !in d)
    && (forall i :: 0 <= i < |outputs| && outputs[i].name in d ==> d[outputs[i].name].File?)
  }

  /** What a name may look like after a crash: foreign files, and managed names that are no regular files,
      are untouched; a managed name is as it was, or complete and valid, or was removed after all outputs
      were in place; and whatever is new is an output or a temporary file nobody takes for a managed one. */
  ghost predicate SafeName(d: Dir, d': Dir, prefix: string, outputs: seq<Output>, n: string) {
    && (!ManagedName(prefix, n) && (n in d || !TempName(prefix, n)) ==> Same(d, d', n))
    && (n in d && d[n].Other? ==> Same(d, d', n))
    && (ManagedName(prefix, n) ==>
          || Same(d, d', n)
          || (exists i :: 0 <= i < |outputs| && outputs[i].name == n && UpToDate(d', outputs[i])
                             && Validate(n, outputs[i].content))
          || (n !in d' && !Wanted(outputs, n) && AllInPlace(d', outputs)))
    && (IsDebris(d, d', outputs, n) ==> d'[n].File? && TempName(prefix, n) && !ManagedName(prefix, n))
  }

  ghost predicate IsDebris(d: Dir, d': Dir, outputs: seq<Output>, n: string) {
    n in d' && n !in d && !Wanted(outputs, n)
  }

  /** A state that is safe to be left with; at most one temporary file is left behind. */
  ghost predicate CrashSafe(d: Dir, d': Dir, prefix: string, outputs: seq<Output>) {
    && (forall n :: SafeName(d, d', prefix, outputs, n))
    && (forall n, m :: IsDebris(d, d', outputs, n) && IsDebris(d, d', outputs, m) ==> n == m)
  }

  lemma {:induction false} AfterFirstElse(d: Dir, outputs: seq<Output>, k: nat, n: string)
    requires k <= |outputs| && !WantedFirst(outputs, k, n)
    ensures Same(d, AfterFirst(d, outputs, k), n)
  {
    if k > 0 {
      AfterFirstElse(d, outputs, k - 1, n);
    }
  }

  lemma {:induction false} AfterFirstIn(d: Dir, outputs: seq<Output>, k: nat, i: nat)
    requires i < k <= |outputs| && forall j :: i < j < k ==> outputs[j].name != outputs[i].name
    ensures UpToDate(AfterFirst(d, outputs, k), outputs[i])
  {
    if i < k - 1 {
      AfterFirstIn(d, outputs, k - 1, i);
    }
  }

  lemma {:induction false} AfterFirstAt(d: Dir, outputs: seq<Output>, k: nat, n: string)
    requires k <= |outputs|
    ensures !WantedFirst(outputs, k, n) ==> Same(d, AfterFirst(d, outputs, k), n)
    ensures forall i :: 0 <= i < k && outputs[i].name == n && (forall j :: i < j < k ==> outputs[j].name != n) ==>
              UpToDate(AfterFirst(d, outputs, k), outputs[i])
  {
    if !WantedFirst(outputs, k, n) {
      AfterFirstElse(d, outputs, k, n);
    }
    forall i | 0 <= i < k && outputs[i].name == n && (forall j :: i < j < k ==> outputs[j].name != n)
      ensures UpToDate(AfterFirst(d, outputs, k), outputs[i])
    {
      AfterFirstIn(d, outputs, k, i);
    }
  }

  lemma {:induction false} AfterOutputsAt(d: Dir, outputs: seq<Output>, n: string)
    ensures !Wanted(outputs, n) ==> Same(d, AfterOutputs(d, outputs), n)
    ensures forall i :: && 0 <= i < |outputs| && outputs[i].name == n
                        && (forall j :: i < j < |outputs| ==> outputs[j].name != n) ==>
              UpToDate(AfterOutputs(d, outputs), outputs[i])
  {
    AfterFirstAt(d, outputs, |outputs|, n);
  }

  lemma {:induction false} TempIsDebris(prefix: string, name: string, random: string)
    requires prefix != "" && prefix[0] != '.' && prefix <= name
    ensures TempName(prefix, TempFor(name, random)) && !ManagedName(prefix, TempFor(name, random))
    ensures TempFor(name, random)[0] == '.'
  {
    var temp := TempFor(name, random);
    assert temp == ("." + prefix) + (name[|prefix|..] + "." + random + ".tmp");
    assert temp[|temp| - 4..] == ".tmp";
    assert temp[0] == '.';
  }

  /** What the states while outputs are written look like: some outputs are done, and at most one more is
      partly written under its temporary name. */
  function HalfWay(d: Dir, outputs: seq<Output>, randoms: seq<string>, done: nat, partial: Option<Bytes>): Dir
    requires |outputs| == |randoms| && done <= |outputs| && (partial.Some? ==> done < |outputs|)
  {
    var base := AfterFirst(d, outputs, done);
    if partial.None? then base else base[TempFor(outputs[done].name, randoms[done]) := File(partial.value)]
  }

  lemma {:induction false} OneOutputStates(d: Dir, out: Output, random: string, k: nat) returns (partial: Option<Bytes>)
    requires TempFor(out.name, random) !in d && TempFor(out.name, random) != out.name
    requires k <= |OneOutput(d, out, random)|
    ensures k < |OneOutput(d, out, random)| ==>
              DoAll(d, OneOutput(d, out, random)[..k]) ==
                if partial.None? then d else d[TempFor(out.name, random) := File(partial.value)]
    ensures DoAll(d, OneOutput(d, out, random)) == With(d, out)
  {
    var temp := TempFor(out.name, random);
    if UpToDate(d, out) {
      assert With(d, out) == d;
      partial := None;
    } else {
      ReplaceStates(d, temp, out, k);
      ReplaceStates(d, temp, out, |Replace(temp, out)|);
      assert Replace(temp, out)[..|Replace(temp, out)|] == Replace(temp, out);
      partial := if k == 0 || k == |Replace(temp, out)| then None else Some(out.content[..k - 1]);
    }
  }

  lemma {:induction false} OneMoreDone(d: Dir, before: seq<Op>, base: Dir, out: Output, random: string)
    requires DoAll(d, before) == base && TempFor(out.name, random) !in base && TempFor(out.name, random) != out.name
    ensures DoAll(d, before + OneOutput(base, out, random)) == With(base, out)
  {
    var _ := OneOutputStates(base, out, random, 0);
    DoAllFrom(d, before, OneOutput(base, out, random), base);
  }

  ghost predicate DoneFirst(d: Dir, outputs: seq<Output>, randoms: seq<string>, k: nat)
    requires |outputs| == |randoms| && k <= |outputs|
  {
    DoAll(d, FirstOps(d, outputs, randoms, k)) == AfterFirst(d, outputs, k)
  }

  lemma {:induction false} NextDone(d: Dir, outputs: seq<Output>, randoms: seq<string>, k: nat)
    requires TempsFree(d, outputs, randoms) && k < |outputs| && DoneFirst(d, outputs, randoms, k)
    ensures DoneFirst(d, outputs, randoms, k + 1)
  {
    TempStaysFree(d, outputs, randoms, k);
    OneMoreDone(d, FirstOps(d, outputs, randoms, k), AfterFirst(d, outputs, k), outputs[k], randoms[k]);
  }

  lemma {:induction false} NoneDone(d: Dir, outputs: seq<Output>, randoms: seq<string>)
    requires |outputs| == |randoms|
    ensures DoneFirst(d, outputs, randoms, 0)
  {
  }

  lemma {:induction false} FirstDone(d: Dir, outputs: seq<Output>, randoms: seq<string>, k: nat)
    requires TempsFree(d, outputs, randoms) && k <= |outputs|
    ensures DoneFirst(d, outputs, randoms, k)
    decreases k
  {
    hide DoneFirst;
    if k == 0 {
      NoneDone(d, outputs, randoms);
    } else {
      FirstDone(d, outputs, randoms, k - 1);
      NextDone(d, outputs, randoms, k - 1);
    }
  }

  lemma {:induction false} OutputsDone(d: Dir, outputs: seq<Output>, randoms: seq<string>)
    requires TempsFree(d, outputs, randoms)
    ensures DoAll(d, OutputOps(d, outputs, randoms)) == AfterOutputs(d, outputs)
  {
    FirstDone(d, outputs, randoms, |outputs|);
  }

  /** The temporary names are free, and no output name looks like one. */
  ghost predicate TempsFree(d: Dir, outputs: seq<Output>, randoms: seq<string>) {
    && |outputs| == |randoms|
    && (forall i :: 0 <= i < |outputs| ==> TempFor(outputs[i].name, randoms[i]) !in d)
    && (forall i :: 0 <= i < |outputs| ==> outputs[i].name != "" && outputs[i].name[0] != '.')
  }

  lemma {:induction false} TempStaysFree(d: Dir, outputs: seq<Output>, randoms: seq<string>, n: nat)
    requires TempsFree(d, outputs, randoms) && n < |outputs|
    ensures TempFor(outputs[n].name, randoms[n]) !in AfterFirst(d, outputs, n)
    ensures !Wanted(outputs, TempFor(outputs[n].name, randoms[n]))
  {
    var temp := TempFor(outputs[n].name, randoms[n]);
    assert temp[0] == '.';
    assert !WantedFirst(outputs, n, temp);
    AfterFirstAt(d, outputs, n, temp);
  }

  lemma {:induction false} OutputCut(d: Dir, outputs: seq<Output>, randoms: seq<string>, n: nat, k: nat)
    returns (partial: Option<Bytes>)
    requires TempsFree(d, outputs, randoms) && n < |outputs|
    requires k < |OneOutput(AfterFirst(d, outputs, n), outputs[n], randoms[n])|
    ensures DoAll(d, FirstOps(d, outputs, randoms, n)
                  + OneOutput(AfterFirst(d, outputs, n), outputs[n], randoms[n])[..k]) ==
            HalfWay(d, outputs, randoms, n, partial)
  {
    var base := AfterFirst(d, outputs, n);
    FirstDone(d, outputs, randoms, n);
    TempStaysFree(d, outputs, randoms, n);
    partial := OneOutputStates(base, outputs[n], randoms[n], k);
    DoAllConcat(d, FirstOps(d, outputs, randoms, n), OneOutput(base, outputs[n], randoms[n])[..k]);
  }

  lemma {:induction false} CutOfConcat(a: seq<Op>, b: seq<Op>, k: nat)
    requires k <= |a + b|
    ensures (a + b)[..k] == if k < |a| then a[..k] else a + b[..k - |a|]
  {
  }

  /** Lists of which each begins with the one before. */
  lemma {:induction false} Extending(lists: seq<seq<Op>>, k: nat, m: nat)
    requires k <= m < |lists| && forall i :: 0 <= i < |lists| - 1 ==> lists[i] <= lists[i + 1]
    ensures lists[k] <= lists[m]
  {
    if k < m {
      Extending(lists, k, m - 1);
      assert lists[m - 1] <= lists[m - 1 + 1];
    }
  }

  lemma {:induction false} OpsStep(d: Dir, outputs: seq<Output>, randoms: seq<string>, i: nat)
    requires |outputs| == |randoms| && i < |outputs|
    ensures FirstOps(d, outputs, randoms, i) <= FirstOps(d, outputs, randoms, i + 1)
  {
  }

  ghost function OpLists(d: Dir, outputs: seq<Output>, randoms: seq<string>): (lists: seq<seq<Op>>)
    requires |outputs| == |randoms|
    ensures |lists| == |outputs| + 1
  {
    seq(|outputs| + 1, i requires 0 <= i <= |outputs| => FirstOps(d, outputs, randoms, i))
  }

  lemma {:induction false} OpListsExtend(d: Dir, outputs: seq<Output>, randoms: seq<string>)
    requires |outputs| == |randoms|
    ensures forall i :: 0 <= i < |outputs| ==> OpLists(d, outputs, randoms)[i] <= OpLists(d, outputs, randoms)[i + 1]
  {
    hide FirstOps;
    forall i | 0 <= i < |outputs| ensures OpLists(d, outputs, randoms)[i] <= OpLists(d, outputs, randoms)[i + 1] {
      OpsStep(d, outputs, randoms, i);
    }
  }

  lemma {:induction false} FirstOpsExtend(d: Dir, outputs: seq<Output>, randoms: seq<string>, k: nat, m: nat)
    requires |outputs| == |randoms| && k <= m <= |outputs|
    ensures FirstOps(d, outputs, randoms, k) <= FirstOps(d, outputs, randoms, m)
  {
    OpListsExtend(d, outputs, randoms);
    Extending(OpLists(d, outputs, randoms), k, m);
  }

  lemma {:induction false} Between(lengths: seq<nat>, m: nat, k: nat) returns (done: nat)
    requires m < |lengths| && lengths[0] == 0 && k < lengths[m]
    ensures done < m && lengths[done] <= k < lengths[done + 1]
  {
    if k < lengths[m - 1] {
      done := Between(lengths, m - 1, k);
    } else {
      done := m - 1;
    }
  }

  /** The output whose replacement the k-th call belongs to. */
  lemma {:induction false} FindCut(d: Dir, outputs: seq<Output>, randoms: seq<string>, k: nat) returns (done: nat)
    requires |outputs| == |randoms| && k < |OutputOps(d, outputs, randoms)|
    ensures done < |outputs| && |FirstOps(d, outputs, randoms, done)| <= k < |FirstOps(d, outputs, randoms, done + 1)|
  {
    var lengths := seq(|outputs| + 1, i requires 0 <= i <= |outputs| => |FirstOps(d, outputs, randoms, i)|);
    done := Between(lengths, |outputs|, k);
  }

  lemma {:induction false} CutOfPrefix(a: seq<Op>, b: seq<Op>, k: nat)
    requires a <= b && k <= |a|
    ensures b[..k] == a[..k]
  {
  }

  lemma {:induction false} OutputStates(d: Dir, outputs: seq<Output>, randoms: seq<string>, k: nat)
    returns (done: nat, partial: Option<Bytes>)
    requires TempsFree(d, outputs, randoms) && k < |OutputOps(d, outputs, randoms)|
    ensures done < |outputs|
    ensures DoAll(d, OutputOps(d, outputs, randoms)[..k]) == HalfWay(d, outputs, randoms, done, partial)
  {
    done := FindCut(d, outputs, randoms, k);
    FirstOpsExtend(d, outputs, randoms, done + 1, |outputs|);
    CutOfPrefix(FirstOps(d, outputs, randoms, done + 1), OutputOps(d, outputs, randoms), k);
    var before := FirstOps(d, outputs, randoms, done);
    CutOfConcat(before, OneOutput(AfterFirst(d, outputs, done), outputs[done], randoms[done]), k);
    partial := OutputCut(d, outputs, randoms, done, k - |before|);
  }

  ghost function Gone(names: seq<string>, outputs: seq<Output>): set<string> {
    set n | n in names && !Wanted(outputs, n)
  }

  lemma {:induction false} GoneGrows(rest: seq<string>, name: string, outputs: seq<Output>)
    ensures Gone(rest + [name], outputs) == Gone(rest, outputs) + (if Wanted(outputs, name) then {} else {name})
  {
  }

  lemma {:induction false} RemovalsGrow(d: Dir, rest: seq<string>, name: string, outputs: seq<Output>)
    ensures DoAll(d, Removals(rest + [name], outputs)) ==
            var before := DoAll(d, Removals(rest, outputs)); if Wanted(outputs, name) then before else before - {name}
  {
    assert (rest + [name])[..|rest|] == rest;
    hide Wanted, DoAll;
    if Wanted(outputs, name) {
      assert Removals(rest, outputs) + [] == Removals(rest, outputs);
    } else {
      DoAllAppend(d, Removals(rest, outputs), Remove(name));
    }
  }

  lemma {:induction false} WithoutMore(d: Dir, gone: set<string>, name: string)
    ensures d - (gone + {name}) == (d - gone) - {name} && d - (gone + {}) == d - gone && d - {} == d
  {
    assert gone + {} == gone;
  }

  lemma {:induction false} RemovalsDone(d: Dir, names: seq<string>, outputs: seq<Output>)
    ensures DoAll(d, Removals(names, outputs)) == d - Gone(names, outputs)
  {
    if names == [] {
      WithoutMore(d, {}, "");
    } else {
      hide *;
      var rest, name := names[..|names| - 1], names[|names| - 1];
      RemovalsDone(d, rest, outputs);
      assert rest + [name] == names;
      GoneGrows(rest, name, outputs);
      RemovalsGrow(d, rest, name, outputs);
      WithoutMore(d, Gone(rest, outputs), name);
    }
  }

  /** A state during the removals is the state after removing for some of the names. */
  lemma {:induction false} RemovalsPrefix(names: seq<string>, outputs: seq<Output>, k: nat) returns (m: nat)
    requires k <= |Removals(names, outputs)|
    ensures m <= |names| && Removals(names, outputs)[..k] == Removals(names[..m], outputs)
    ensures k == |Removals(names, outputs)| ==> m == |names|
  {
    var ops := Removals(names, outputs);
    if k == |ops| {
      assert names[..|names|] == names && ops[..k] == ops;
      return |names|;
    }
    var n := |names| - 1;
    var before := Removals(names[..n], outputs);
    m := RemovalsPrefix(names[..n], outputs, k);
    assert ops[..k] == before[..k];
    assert names[..n][..m] == names[..m];
  }

  // ---- The main results

  lemma {:induction false} AcceptableTempsFree(d: Dir, prefix: string, outputs: seq<Output>, randoms: seq<string>)
    requires Acceptable(prefix, outputs) && Unobstructed(d, outputs, randoms)
    ensures TempsFree(d, outputs, randoms)
  {
    forall i | 0 <= i < |outputs| ensures outputs[i].name != "" && outputs[i].name[0] != '.' {
      assert prefix <= outputs[i].name;
    }
  }

  lemma {:induction false} AllOutputsInPlace(d: Dir, outputs: seq<Output>)
    requires forall i, j :: 0 <= i < j < |outputs| ==> outputs[i].name != outputs[j].name
    ensures AllInPlace(AfterOutputs(d, outputs), outputs)
  {
    forall i | 0 <= i < |outputs| ensures UpToDate(AfterOutputs(d, outputs), outputs[i]) {
      AfterOutputsAt(d, outputs, outputs[i].name);
    }
  }

  /** The directory the agent is after. */
  ghost function Target(d: Dir, prefix: string, outputs: seq<Output>): Dir {
    AfterOutputs(d, outputs) - Gone(Strings(Managed(AfterOutputs(d, outputs), prefix)), outputs)
  }

  /** Undisturbed, the calls lead exactly there. */
  lemma {:induction false} ApplyReachesTarget(d: Dir, prefix: string, outputs: seq<Output>, randoms: seq<string>)
    requires TempsFree(d, outputs, randoms)
    ensures DoAll(d, ApplyOps(d, prefix, outputs, randoms)) == Target(d, prefix, outputs)
  {
    OutputsDone(d, outputs, randoms);
    DoAllConcat(d, OutputOps(d, outputs, randoms), RemovalOps(AfterOutputs(d, outputs), prefix, outputs));
    RemovalsDone(AfterOutputs(d, outputs), Strings(Managed(AfterOutputs(d, outputs), prefix)), outputs);
  }

  /** What one name can look like while outputs are written. */
  ghost predicate OutputPoint(d: Dir, d': Dir, outputs: seq<Output>, done: nat, temp: Option<string>, n: string)
    requires done <= |outputs|
  {
    if temp == Some(n) then n !in d && n in d' && d'[n].File?
    else if WantedFirst(outputs, done, n) then
      exists i :: 0 <= i < done && outputs[i].name == n && UpToDate(d', outputs[i])
    else Same(d, d', n)
  }

  lemma {:induction false} HalfWayPoint(d: Dir, outputs: seq<Output>, randoms: seq<string>, done: nat,
          partial: Option<Bytes>, n: string)
    requires TempsFree(d, outputs, randoms) && done < |outputs|
    requires forall i, j :: 0 <= i < j < |outputs| ==> outputs[i].name != outputs[j].name
    ensures OutputPoint(d, HalfWay(d, outputs, randoms, done, partial), outputs, done,
                        if partial.Some? then Some(TempFor(outputs[done].name, randoms[done])) else None, n)
  {
    TempStaysFree(d, outputs, randoms, done);
    var temp := TempFor(outputs[done].name, randoms[done]);
    AfterFirstAt(d, outputs, done, n);
    AfterFirstAt(d, outputs, done, temp);
    if WantedFirst(outputs, done, n) {
      var i :| 0 <= i < done && outputs[i].name == n;
      assert UpToDate(AfterFirst(d, outputs, done), outputs[i]) && n != temp;
    }
  }

  lemma {:induction false} PointIsSafe(d: Dir, d': Dir, prefix: string, outputs: seq<Output>, done: nat,
          temp: Option<string>, n: string)
    requires Acceptable(prefix, outputs) && done <= |outputs|
    requires forall i :: 0 <= i < |outputs| && outputs[i].name in d ==> d[outputs[i].name].File?
    requires temp.Some? ==> TempName(prefix, temp.value) && !ManagedName(prefix, temp.value)
    requires OutputPoint(d, d', outputs, done, temp, n)
    ensures SafeName(d, d', prefix, outputs, n)
    ensures IsDebris(d, d', outputs, n) ==> temp == Some(n)
  {
    if temp != Some(n) && WantedFirst(outputs, done, n) {
      var i :| 0 <= i < done && outputs[i].name == n && UpToDate(d', outputs[i]);
      assert prefix <= outputs[i].name && Validate(outputs[i].name, outputs[i].content);
    }
  }

  lemma {:induction false} HalfWayIsSafe(d: Dir, prefix: string, outputs: seq<Output>, randoms: seq<string>, done: nat,
          partial: Option<Bytes>)
    requires Acceptable(prefix, outputs) && Unobstructed(d, outputs, randoms) && done < |outputs|
    ensures CrashSafe(d, HalfWay(d, outputs, randoms, done, partial), prefix, outputs)
  {
    AcceptableTempsFree(d, prefix, outputs, randoms);
    TempIsDebris(prefix, outputs[done].name, randoms[done]);
    var d' := HalfWay(d, outputs, randoms, done, partial);
    var temp := if partial.Some? then Some(TempFor(outputs[done].name, randoms[done])) else None;
    forall n ensures SafeName(d, d', prefix, outputs, n) && (IsDebris(d, d', outputs, n) ==> temp == Some(n)) {
      HalfWayPoint(d, outputs, randoms, done, partial, n);
      PointIsSafe(d, d', prefix, outputs, done, temp, n);
    }
  }

  lemma {:induction false} RemovingIsSafe(d: Dir, prefix: string, outputs: seq<Output>, randoms: seq<string>,
          names: seq<string>)
    requires Acceptable(prefix, outputs) && Unobstructed(d, outputs, randoms)
    requires forall i :: 0 <= i < |names| ==> names[i] in Managed(AfterOutputs(d, outputs), prefix)
    ensures CrashSafe(d, AfterOutputs(d, outputs) - Gone(names, outputs), prefix, outputs)
  {
    var d1 := AfterOutputs(d, outputs);
    var d' := d1 - Gone(names, outputs);
    AllOutputsInPlace(d, outputs);
    forall i | 0 <= i < |outputs| ensures UpToDate(d', outputs[i]) {
      assert UpToDate(d1, outputs[i]) && Wanted(outputs, outputs[i].name);
    }
    forall n ensures SafeName(d, d', prefix, outputs, n) && !IsDebris(d, d', outputs, n) {
      AfterOutputsAt(d, outputs, n);
      if n !in Gone(names, outputs) {
        if Wanted(outputs, n) {
          var i :| 0 <= i < |outputs| && outputs[i].name == n;
          assert UpToDate(d', outputs[i]);
        }
        PointIsSafe(d, d', prefix, outputs, |outputs|, None, n);
      }
    }
  }

  lemma {:induction false} CutWhileWriting(d: Dir, prefix: string, outputs: seq<Output>, randoms: seq<string>, k: nat)
    requires Acceptable(prefix, outputs) && Unobstructed(d, outputs, randoms)
    requires k < |OutputOps(d, outputs, randoms)|
    ensures CrashSafe(d, DoAll(d, OutputOps(d, outputs, randoms)[..k]), prefix, outputs)
  {
    AcceptableTempsFree(d, prefix, outputs, randoms);
    var done, partial := OutputStates(d, outputs, randoms, k);
    HalfWayIsSafe(d, prefix, outputs, randoms, done, partial);
  }

  lemma {:induction false} CutWhileRemoving(d: Dir, prefix: string, outputs: seq<Output>, randoms: seq<string>, k: nat)
    requires Acceptable(prefix, outputs) && Unobstructed(d, outputs, randoms)
    requires k <= |RemovalOps(AfterOutputs(d, outputs), prefix, outputs)|
    ensures CrashSafe(d, DoAll(AfterOutputs(d, outputs), RemovalOps(AfterOutputs(d, outputs), prefix, outputs)[..k]),
                      prefix, outputs)
  {
    var d1 := AfterOutputs(d, outputs);
    var names := Strings(Managed(d1, prefix));
    var m := RemovalsPrefix(names, outputs, k);
    RemovalsDone(d1, names[..m], outputs);
    StringsList(Managed(d1, prefix));
    RemovingIsSafe(d, prefix, outputs, randoms, names[..m]);
  }

  lemma {:induction false} CutConcat(d: Dir, a: seq<Op>, b: seq<Op>, k: nat)
    requires k <= |a + b|
    ensures DoAll(d, (a + b)[..k]) == if k < |a| then DoAll(d, a[..k]) else DoAll(DoAll(d, a), b[..k - |a|])
  {
    if k < |a| {
      assert (a + b)[..k] == a[..k];
    } else {
      assert (a + b)[..k] == a + b[..k - |a|];
      DoAllConcat(d, a, b[..k - |a|]);
    }
  }

  /** Crash safety: wherever the calls of an Apply are cut off, the directory is safe to be left with. */
  lemma {:induction false} ApplyIsCrashSafe(d: Dir, prefix: string, outputs: seq<Output>, randoms: seq<string>, k: nat)
    requires Acceptable(prefix, outputs) && Unobstructed(d, outputs, randoms)
    requires k <= |ApplyOps(d, prefix, outputs, randoms)|
    ensures CrashSafe(d, DoAll(d, ApplyOps(d, prefix, outputs, randoms)[..k]), prefix, outputs)
  {
    var first := OutputOps(d, outputs, randoms);
    var second := RemovalOps(AfterOutputs(d, outputs), prefix, outputs);
    CutConcat(d, first, second, k);
    if k < |first| {
      CutWhileWriting(d, prefix, outputs, randoms, k);
    } else {
      AcceptableTempsFree(d, prefix, outputs, randoms);
      OutputsDone(d, outputs, randoms);
      CutWhileRemoving(d, prefix, outputs, randoms, k - |first|);
    }
  }

  /** What the cleanup at start leaves. */
  ghost function Cleaned(d: Dir, prefix: string): Dir {
    map n | n in d && !(d[n].File? && TempName(prefix, n)) :: d[n]
  }

  /** The target, name by name. */
  lemma {:induction false} TargetAt(d: Dir, prefix: string, outputs: seq<Output>, n: string)
    requires Acceptable(prefix, outputs)
    ensures forall i :: 0 <= i < |outputs| && outputs[i].name == n ==> UpToDate(Target(d, prefix, outputs), outputs[i])
    ensures !Wanted(outputs, n) && n in d && d[n].File? && ManagedName(prefix, n) ==> n !in Target(d, prefix, outputs)
    ensures !Wanted(outputs, n) && !(n in d && d[n].File? && ManagedName(prefix, n)) ==>
              Same(d, Target(d, prefix, outputs), n)
  {
    var d1 := AfterOutputs(d, outputs);
    AfterOutputsAt(d, outputs, n);
    AllOutputsInPlace(d, outputs);
    StringsList(Managed(d1, prefix));
    var gone := Gone(Strings(Managed(d1, prefix)), outputs);
    if n in gone {
      assert !Wanted(outputs, n) && n in Managed(d1, prefix);
    }
    forall i | 0 <= i < |outputs| && outputs[i].name == n ensures UpToDate(Target(d, prefix, outputs), outputs[i]) {
      assert Wanted(outputs, n);
    }
  }

  lemma {:induction false} RerunAt(d: Dir, d': Dir, prefix: string, outputs: seq<Output>, n: string)
    requires Acceptable(prefix, outputs) && SafeName(d, d', prefix, outputs, n)
    ensures IsDebris(d, d', outputs, n) || Same(Target(d, prefix, outputs), Target(d', prefix, outputs), n)
  {
    TargetAt(d, prefix, outputs, n);
    TargetAt(d', prefix, outputs, n);
    if Wanted(outputs, n) {
      var i :| 0 <= i < |outputs| && outputs[i].name == n;
      assert UpToDate(Target(d, prefix, outputs), outputs[i]) && UpToDate(Target(d', prefix, outputs), outputs[i]);
    }
  }

  lemma {:induction false} CleanedAt(d: Dir, prefix: string, outputs: seq<Output>, n: string)
    requires Acceptable(prefix, outputs)
    ensures var t := Target(Cleaned(d, prefix), prefix, outputs);
            if n in d && d[n].File? && TempName(prefix, n) then n !in t else Same(t, Target(d, prefix, outputs), n)
  {
    TargetAt(d, prefix, outputs, n);
    TargetAt(Cleaned(d, prefix), prefix, outputs, n);
    if Wanted(outputs, n) {
      var i :| 0 <= i < |outputs| && outputs[i].name == n;
      assert UpToDate(Target(d, prefix, outputs), outputs[i])
             && UpToDate(Target(Cleaned(d, prefix), prefix, outputs), outputs[i]);
      assert prefix <= outputs[i].name && n[0] != '.';
    }
  }

  /** Applying again from any crash point leads, debris aside, to the directory an undisturbed Apply
      leads to; and with the cleanup a restart does first, exactly there. */
  lemma {:induction false} RerunRecovers(d: Dir, d': Dir, prefix: string, outputs: seq<Output>)
    requires Acceptable(prefix, outputs) && CrashSafe(d, d', prefix, outputs)
    ensures forall n :: IsDebris(d, d', outputs, n) || Same(Target(d, prefix, outputs), Target(d', prefix, outputs), n)
    ensures Target(Cleaned(d', prefix), prefix, outputs) == Target(Cleaned(d, prefix), prefix, outputs)
  {
    var t, t' := Target(Cleaned(d, prefix), prefix, outputs), Target(Cleaned(d', prefix), prefix, outputs);
    forall n
      ensures IsDebris(d, d', outputs, n) || Same(Target(d, prefix, outputs), Target(d', prefix, outputs), n)
      ensures Same(t, t', n)
    {
      assert SafeName(d, d', prefix, outputs, n);
      RerunAt(d, d', prefix, outputs, n);
      CleanedAt(d, prefix, outputs, n);
      CleanedAt(d', prefix, outputs, n);
      TargetAt(d, prefix, outputs, n);
    }
    assert t.Keys == t'.Keys by {
      forall n ensures n in t <==> n in t' {
        assert Same(t, t', n);
      }
    }
    forall n | n in t ensures t[n] == t'[n] {
      assert Same(t, t', n);
    }
    assert t == t';
  }

  /** Of the files in the target, the managed ones are exactly the outputs. */
  lemma {:induction false} TargetIsExact(d: Dir, prefix: string, outputs: seq<Output>)
    requires Acceptable(prefix, outputs)
    ensures AllInPlace(Target(d, prefix, outputs), outputs)
    ensures forall n :: n in Managed(Target(d, prefix, outputs), prefix) <==> Wanted(outputs, n)
  {
    var t := Target(d, prefix, outputs);
    forall i | 0 <= i < |outputs| ensures UpToDate(t, outputs[i]) {
      TargetAt(d, prefix, outputs, outputs[i].name);
    }
    forall n ensures n in Managed(t, prefix) <==> Wanted(outputs, n) {
      TargetAt(d, prefix, outputs, n);
      if Wanted(outputs, n) {
        var i :| 0 <= i < |outputs| && outputs[i].name == n;
        assert UpToDate(t, outputs[i]);
      }
    }
  }

  lemma {:induction false} NothingToWrite(d: Dir, outputs: seq<Output>, randoms: seq<string>, k: nat)
    requires |outputs| == |randoms| && AllInPlace(d, outputs) && k <= |outputs|
    ensures FirstOps(d, outputs, randoms, k) == [] && AfterFirst(d, outputs, k) == d
  {
    if k > 0 {
      NothingToWrite(d, outputs, randoms, k - 1);
      assert UpToDate(d, outputs[k - 1]);
      assert With(d, outputs[k - 1]) == d;
    }
  }

  lemma {:induction false} NothingToRemove(names: seq<string>, outputs: seq<Output>)
    requires forall i :: 0 <= i < |names| ==> Wanted(outputs, names[i])
    ensures Removals(names, outputs) == []
  {
    if names != [] {
      NothingToRemove(names[..|names| - 1], outputs);
    }
  }

  /** Applying the same outputs again makes no call that changes anything. */
  lemma {:induction false} ApplyIsIdempotent(d: Dir, prefix: string, outputs: seq<Output>, randoms: seq<string>)
    requires Acceptable(prefix, outputs) && |outputs| == |randoms|
    ensures ApplyOps(Target(d, prefix, outputs), prefix, outputs, randoms) == []
  {
    var t := Target(d, prefix, outputs);
    TargetIsExact(d, prefix, outputs);
    NothingToWrite(t, outputs, randoms, |outputs|);
    StringsList(Managed(t, prefix));
    NothingToRemove(Strings(Managed(t, prefix)), outputs);
  }
}

/** The output directory as the agent's calls see it: any of them can fail. */
module OutputDirectory {
  import opened Options
  import opened Ordering
  import opened Directory

  datatype Error =
    | EmptyPrefix
    | LacksPrefix(name: string)
    | NotValid(name: string)
    | CannotWrite(name: string)
    | CannotList
    | CannotRemove(name: string)
    | CannotSync

  /** What is wrong with the first output that is refused. */
  function Refusal(prefix: string, outputs: seq<Output>): Option<Error> {
    if outputs == [] then None else
      var out := outputs[|outputs| - 1];
      var earlier := Refusal(prefix, outputs[..|outputs| - 1]);
      if earlier.Some? then earlier
      else if !(prefix <= out.name) then Some(LacksPrefix(out.name))
      else if !Validate(out.name, out.content) then Some(NotValid(out.name))
      else None
  }

  lemma {:induction false} RefusalSays(prefix: string, outputs: seq<Output>)
    ensures Refusal(prefix, outputs).None? <==>
            (forall i :: 0 <= i < |outputs| ==>
               prefix <= outputs[i].name && Validate(outputs[i].name, outputs[i].content))
  {
    if outputs != [] {
      var n := |outputs| - 1;
      RefusalSays(prefix, outputs[..n]);
      assert forall i :: 0 <= i < n ==> outputs[..n][i] == outputs[i];
    }
  }

  ghost predicate Acceptably(prefix: string, out: Output) {
    prefix <= out.name && Validate(out.name, out.content)
  }

  /** The error is about the first output that is refused: it lacks the prefix, or has it and does not validate. */
  lemma {:induction false} RefusalNames(prefix: string, outputs: seq<Output>)
    ensures Refusal(prefix, outputs).Some? ==>
              exists i :: && 0 <= i < |outputs| && !Acceptably(prefix, outputs[i])
                          && (forall j :: 0 <= j < i ==> Acceptably(prefix, outputs[j]))
                          && (Refusal(prefix, outputs).value ==
                              if prefix <= outputs[i].name then NotValid(outputs[i].name)
                              else LacksPrefix(outputs[i].name))
  {
    if outputs != [] {
      var n := |outputs| - 1;
      RefusalNames(prefix, outputs[..n]);
      RefusalSays(prefix, outputs[..n]);
      assert forall i :: 0 <= i < n ==> outputs[..n][i] == outputs[i];
      if Refusal(prefix, outputs[..n]).None? && Refusal(prefix, outputs).Some? {
        assert !Acceptably(prefix, outputs[n]);
      }
    }
  }

  /** The outputs whose content differs from what is there. */
  function ChangedFirst(d: Dir, outputs: seq<Output>, k: nat): seq<string>
    requires k <= |outputs|
  {
    if k == 0 then []
    else
      var upToDate := UpToDate(AfterFirst(d, outputs, k - 1), outputs[k - 1]);
      ChangedFirst(d, outputs, k - 1) + (if upToDate then [] else [outputs[k - 1].name])
  }

  function Changed(d: Dir, outputs: seq<Output>): seq<string> {
    ChangedFirst(d, outputs, |outputs|)
  }

  function Dropped(names: seq<string>, outputs: seq<Output>): seq<string> {
    if names == [] then [] else
      var n := |names| - 1;
      Dropped(names[..n], outputs) + (if Wanted(outputs, names[n]) then [] else [names[n]])
  }

  /** If no two outputs have the same name, written are exactly those whose file is not there with their content. */
  lemma {:induction false} ChangedSays(d: Dir, outputs: seq<Output>, k: nat, n: string)
    requires k <= |outputs| && forall i, j :: 0 <= i < j < |outputs| ==> outputs[i].name != outputs[j].name
    ensures n in ChangedFirst(d, outputs, k) <==>
              exists i :: 0 <= i < k && outputs[i].name == n && !(n in d && d[n] == File(outputs[i].content))
  {
    if k > 0 {
      ChangedSays(d, outputs, k - 1, n);
      AfterFirstElse(d, outputs, k - 1, outputs[k - 1].name);
      hide AfterFirst;
    }
  }

  /** Removed are exactly the names that nothing is wanted under. */
  lemma {:induction false} DroppedSays(names: seq<string>, outputs: seq<Output>, n: string)
    ensures n in Dropped(names, outputs) <==> n in names && forall i :: 0 <= i < |outputs| ==> outputs[i].name != n
  {
    if names != [] {
      DroppedSays(names[..|names| - 1], outputs, n);
      assert names == names[..|names| - 1] + [names[|names| - 1]];
    }
  }

  /** A state that some number of the given calls lead to. */
  ghost predicate OnPath(d: Dir, d': Dir, ops: seq<Op>) {
    exists k :: 0 <= k <= |ops| && d' == DoAll(d, ops[..k])
  }

  ghost predicate AllOnPath(d: Dir, made: seq<Op>, ops: seq<Op>) {
    forall j :: 0 <= j <= |made| ==> OnPath(d, DoAll(d, made[..j]), ops)
  }

  lemma {:induction false} PrefixOnPath(d: Dir, ops: seq<Op>, k: nat)
    requires k <= |ops|
    ensures AllOnPath(d, ops[..k], ops)
  {
    forall j | 0 <= j <= k ensures OnPath(d, DoAll(d, ops[..k][..j]), ops) {
      assert ops[..k][..j] == ops[..j];
    }
  }

  lemma {:induction false} PathGrows(d: Dir, made: seq<Op>, ops: seq<Op>, more: seq<Op>)
    requires AllOnPath(d, made, ops)
    ensures AllOnPath(d, made, ops + more)
  {
    forall j | 0 <= j <= |made| ensures OnPath(d, DoAll(d, made[..j]), ops + more) {
      assert OnPath(d, DoAll(d, made[..j]), ops);
      var k :| 0 <= k <= |ops| && DoAll(d, made[..j]) == DoAll(d, ops[..k]);
      assert (ops + more)[..k] == ops[..k];
    }
  }

  /** Continuing along the path from the end of its first part. */
  lemma {:induction false} PathContinues(d: Dir, first: seq<Op>, made: seq<Op>, ops: seq<Op>)
    requires AllOnPath(DoAll(d, first), made, ops)
    ensures AllOnPath(d, first + made, first + ops)
  {
    forall j | 0 <= j <= |first + made| ensures OnPath(d, DoAll(d, (first + made)[..j]), first + ops) {
      if j <= |first| {
        assert (first + made)[..j] == first[..j] == (first + ops)[..j];
      } else {
        var i := j - |first|;
        assert (first + made)[..j] == first + made[..i];
        DoAllConcat(d, first, made[..i]);
        assert OnPath(DoAll(d, first), DoAll(DoAll(d, first), made[..i]), ops);
        var k :| 0 <= k <= |ops| && DoAll(DoAll(d, first), made[..i]) == DoAll(DoAll(d, first), ops[..k]);
        DoAllConcat(d, first, ops[..k]);
        assert (first + ops)[..|first| + k] == first + ops[..k];
      }
    }
  }

  /** Giving up on a temporary file leads back to where its replacement began. */
  lemma {:induction false} CleanupOnPath(d: Dir, temp: string, out: Output, k: nat)
    requires temp !in d && temp != out.name && 0 < k < |Replace(temp, out)|
    ensures AllOnPath(d, Replace(temp, out)[..k] + [Remove(temp)], Replace(temp, out))
  {
    var ops := Replace(temp, out);
    var made := ops[..k] + [Remove(temp)];
    ReplaceStates(d, temp, out, k);
    PrefixOnPath(d, ops, k);
    forall j | 0 <= j <= |made| ensures OnPath(d, DoAll(d, made[..j]), ops) {
      if j <= k {
        assert made[..j] == ops[..k][..j];
      } else {
        assert made[..j] == made && made[..k] == ops[..k];
        assert d[temp := File(out.content[..k - 1])] - {temp} == d;
        assert DoAll(d, ops[..0]) == d;
      }
    }
  }

  lemma {:induction false} Replaced(start: Dir, before: seq<Op>, temp: string, out: Output)
    requires var d := DoAll(start, before); temp !in d && temp != out.name
    ensures var after := before + ([Create(temp)] + Writes(temp, out.content)) + [Rename(temp, out.name)];
            && after == before + Replace(temp, out)
            && DoAll(start, after) == With(DoAll(start, before), out)
            && Journey(start, before, after, Replace(temp, out))
  {
    var ops := Replace(temp, out);
    ReplaceStates(DoAll(start, before), temp, out, |ops|);
    assert ops[..|ops|] == ops;
    DoAllConcat(start, before, ops);
    JourneyDone(start, before, ops);
    assert before + ([Create(temp)] + Writes(temp, out.content)) + [Rename(temp, out.name)] == before + ops;
  }

  lemma {:induction false} WroteByte(before: seq<Op>, temp: string, content: Bytes, i: nat)
    requires i < |content|
    ensures before + ([Create(temp)] + Writes(temp, content[..i])) + [Write(temp, content[i])] ==
            before + ([Create(temp)] + (Writes(temp, content[..i]) + [Write(temp, content[i])]))
  {
  }

  lemma {:induction false} TempDiffers(name: string, random: string)
    ensures TempFor(name, random) != name
  {
    assert |TempFor(name, random)| > |name|;
  }

  lemma {:induction false} WholePath(d: Dir, ops: seq<Op>)
    ensures AllOnPath(d, ops, ops)
  {
    assert ops[..|ops|] == ops;
    PrefixOnPath(d, ops, |ops|);
  }

  lemma {:induction false} NothingOnPath(d: Dir, ops: seq<Op>)
    ensures AllOnPath(d, [], ops)
  {
    assert ops[..0] == [];
    PrefixOnPath(d, ops, 0);
  }

  /** The calls made since some point, of all the calls made since the start. */
  ghost predicate Journey(start: Dir, before: seq<Op>, after: seq<Op>, ops: seq<Op>) {
    before <= after && AllOnPath(DoAll(start, before), after[|before|..], ops)
  }

  lemma {:induction false} JourneyDone(start: Dir, before: seq<Op>, ops: seq<Op>)
    ensures Journey(start, before, before + ops, ops)
  {
    WholePath(DoAll(start, before), ops);
    assert (before + ops)[|before|..] == ops;
  }

  /** Where the loop over the outputs is after the first k of them. */
  ghost predicate WroteFirst(d: Dir, before: seq<Op>, outputs: seq<Output>, randoms: seq<string>, k: nat, files: Dir,
          calls: seq<Op>, written: seq<string>)
    requires |outputs| == |randoms| && k <= |outputs|
  {
    && files == AfterFirst(d, outputs, k)
    && calls == before + FirstOps(d, outputs, randoms, k)
    && written == ChangedFirst(d, outputs, k)
  }

  lemma {:induction false} JourneyContinues(start: Dir, before: seq<Op>, first: seq<Op>, after: seq<Op>, ops: seq<Op>)
    requires Journey(start, before + first, after, ops)
    ensures Journey(start, before, after, first + ops)
  {
    var made := after[|before + first|..];
    DoAllConcat(start, before, first);
    PathContinues(DoAll(start, before), first, made, ops);
    assert after == before + first + made;
    assert after[|before|..] == first + made;
  }

  lemma {:induction false} JourneyGrows(start: Dir, before: seq<Op>, after: seq<Op>, ops: seq<Op>, all: seq<Op>)
    requires Journey(start, before, after, ops) && ops <= all
    ensures Journey(start, before, after, all)
  {
    assert ops + all[|ops|..] == all;
    PathGrows(DoAll(start, before), after[|before|..], ops, all[|ops|..]);
  }

  /** When one of the replacements fails, the calls so far still lie on the path of all of them. */
  lemma {:induction false} OutputFails(start: Dir, before: seq<Op>, d: Dir, outputs: seq<Output>, randoms: seq<string>,
          i: nat, files: Dir, calls: seq<Op>, written: seq<string>, after: seq<Op>)
    requires |outputs| == |randoms| && i < |outputs| && d == DoAll(start, before)
    requires WroteFirst(d, before, outputs, randoms, i, files, calls, written)
    requires Journey(start, calls, after, OneOutput(files, outputs[i], randoms[i]))
    ensures Journey(start, before, after, OutputOps(d, outputs, randoms))
  {
    JourneyContinues(start, before, FirstOps(d, outputs, randoms, i), after, OneOutput(files, outputs[i], randoms[i]));
    FirstOpsExtend(d, outputs, randoms, i + 1, |outputs|);
    JourneyGrows(start, before, after, FirstOps(d, outputs, randoms, i + 1), OutputOps(d, outputs, randoms));
  }

  lemma {:induction false} WroteNext(d: Dir, before: seq<Op>, outputs: seq<Output>, randoms: seq<string>, i: nat,
          files: Dir, calls: seq<Op>, written: seq<string>)
    requires |outputs| == |randoms| && i < |outputs|
    requires WroteFirst(d, before, outputs, randoms, i, files, calls, written)
    ensures WroteFirst(d, before, outputs, randoms, i + 1, With(files, outputs[i]),
                       calls + OneOutput(files, outputs[i], randoms[i]),
                       written + (if UpToDate(files, outputs[i]) then [] else [outputs[i].name]))
  {
    ConcatAssociates(before, FirstOps(d, outputs, randoms, i), OneOutput(files, outputs[i], randoms[i]));
  }

  lemma {:induction false} RemovalStep(names: seq<string>, outputs: seq<Output>, i: nat)
    requires i < |names|
    ensures Removals(names[..i + 1], outputs) ==
            Removals(names[..i], outputs) + (if Wanted(outputs, names[i]) then [] else [Remove(names[i])])
    ensures Dropped(names[..i + 1], outputs) ==
            Dropped(names[..i], outputs) + (if Wanted(outputs, names[i]) then [] else [names[i]])
  {
    assert names[..i + 1][..i] == names[..i];
  }

  lemma {:induction false} RemovalFails(d: Dir, names: seq<string>, outputs: seq<Output>, i: nat)
    requires i <= |names|
    ensures AllOnPath(d, Removals(names[..i], outputs), Removals(names, outputs))
  {
    RemovalsExtend(names, outputs, i);
    var k := |Removals(names[..i], outputs)|;
    assert Removals(names, outputs)[..k] == Removals(names[..i], outputs);
    PrefixOnPath(d, Removals(names, outputs), k);
  }

  /** From the two halves to the whole. */
  lemma {:induction false} HalvesOnPath(start: Dir, before: seq<Op>, d: Dir, after: seq<Op>, prefix: string,
          outputs: seq<Output>, randoms: seq<string>)
    requires |outputs| == |randoms| && d == DoAll(start, before)
    requires Journey(start, before + OutputOps(d, outputs, randoms), after,
                     RemovalOps(AfterOutputs(d, outputs), prefix, outputs))
    ensures Journey(start, before, after, ApplyOps(d, prefix, outputs, randoms))
  {
    JourneyContinues(start, before, OutputOps(d, outputs, randoms), after,
                     RemovalOps(AfterOutputs(d, outputs), prefix, outputs));
  }

  ghost function PartlyCleaned(d: Dir, prefix: string, seen: seq<string>): Dir {
    map n | n in d && !(n in seen && d[n].File? && TempName(prefix, n)) :: d[n]
  }

  lemma {:induction false} PartlyCleanedFirst(d: Dir, prefix: string)
    ensures PartlyCleaned(d, prefix, []) == d
  {
  }

  lemma {:induction false} PartlyCleanedStep(d: Dir, prefix: string, entries: seq<string>, i: nat)
    requires i < |entries|
    ensures var before := PartlyCleaned(d, prefix, entries[..i]);
            PartlyCleaned(d, prefix, entries[..i + 1]) ==
            if entries[i] in before && before[entries[i]].File?
               && TempName(prefix, entries[i]) then before - {entries[i]} else before
  {
    assert entries[..i + 1] == entries[..i] + [entries[i]];
  }

  /** Some of the leftover temporary files are gone, and nothing else has changed. */
  ghost predicate LeftByCleanup(d: Dir, d': Dir, prefix: string) {
    && Cleaned(d', prefix) == Cleaned(d, prefix)
    && (forall n :: n in d' ==> n in d && d'[n] == d[n])
  }

  lemma {:induction false} PartlyIsLeft(d: Dir, prefix: string, entries: seq<string>)
    ensures LeftByCleanup(d, PartlyCleaned(d, prefix, entries), prefix)
  {
  }

  lemma {:induction false} CleanedIsLast(d: Dir, prefix: string, entries: seq<string>)
    ensures entries == Strings(d.Keys) ==> PartlyCleaned(d, prefix, entries) == Cleaned(d, prefix)
  {
    StringsList(d.Keys);
  }

  class OutputDir {
    var files: Dir
    /** What the directory held at first, and every call since that changed it. */
    ghost const start: Dir
    ghost var calls: seq<Op>

    ghost predicate Valid()
      reads this
    {
      files == DoAll(start, calls)
    }

    constructor (files: Dir)
      ensures Valid() && this.files == files && calls == []
    {
      this.files := files;
      start := files;
      calls := [];
    }

    /** One system call; it fails without effect, or because it must, or for any other reason. */
    method Call(op: Op) returns (ok: bool)
      requires Valid()
      modifies this
      ensures Valid()
      ensures ok ==> Possible(old(files), op) && files == Do(old(files), op) && calls == old(calls) + [op]
      ensures !ok ==> files == old(files) && calls == old(calls)
    {
      var fails: bool := *;
      ok := !fails && Possible(files, op);
      if ok {
        files := Do(files, op);
        calls := calls + [op];
      }
    }

    method ReadDir() returns (ok: bool, names: seq<string>)
      ensures ok ==> names == Strings(files.Keys)
    {
      ok := *;
      names := SortStrings(files.Keys);
    }

    method ListManaged(prefix: string) returns (ok: bool, names: seq<string>)
      ensures ok ==> names == Strings(Managed(files, prefix))
    {
      var entries;
      ok, entries := ReadDir();
      names := [];
      if !ok {
        return;
      }
      StringsList(files.Keys);
      for i := 0 to |entries|
        invariant forall n :: n in names <==> n in entries[..i] && files[n].File? && ManagedName(prefix, n)
      {
        if files[entries[i]].File? && prefix <= entries[i] && ManagedExt(entries[i]) {
          names := names + [entries[i]];
        }
      }
      assert entries[..|entries|] == entries;
      assert (set n | n in names) == Managed(files, prefix);
      names := SortStrings(set n | n in names);
    }

    /** Removes what an interrupted write left behind; nothing else is removed, not even if a call fails. */
    method CleanupTemp(prefix: string) returns (ok: bool)
      requires Valid()
      modifies this
      ensures Valid()
      ensures ok ==> files == Cleaned(old(files), prefix)
      ensures LeftByCleanup(old(files), files, prefix)
    {
      ghost var was := files;
      var entries;
      ok, entries := ReadDir();
      PartlyCleanedFirst(was, prefix);
      if !ok {
        PartlyIsLeft(was, prefix, []);
        return;
      }
      for i := 0 to |entries|
        invariant Valid() && ok
        invariant files == PartlyCleaned(was, prefix, entries[..i])
      {
        PartlyCleanedStep(was, prefix, entries, i);
        var n := entries[i];
        if n in files && files[n].File? && "." + prefix <= n && HasSuffix(n, ".tmp") {
          ok := Call(Remove(n));
          if !ok {
            PartlyIsLeft(was, prefix, entries[..i]);
            return;
          }
        }
      }
      assert entries[..|entries|] == entries;
      CleanedIsLast(was, prefix, entries);
      PartlyIsLeft(was, prefix, entries);
    }

    /** Creates the temporary file and writes it, byte by byte since any write can be cut short. */
    method FillTemp(temp: string, out: Output) returns (ok: bool)
      requires Valid() && temp != out.name
      modifies this
      ensures Valid()
      ensures ok ==> temp !in old(files) && calls == old(calls) + ([Create(temp)] + Writes(temp, out.content))
      ensures !ok ==> Journey(start, old(calls), calls, Replace(temp, out))
    {
      ghost var was, before := files, calls;
      ok := Call(Create(temp));
      if !ok {
        NothingOnPath(was, Replace(temp, out));
        return;
      }
      var i := 0;
      while i < |out.content|
        invariant 0 <= i <= |out.content| && ok
        invariant Valid() && calls == before + ([Create(temp)] + Writes(temp, out.content[..i]))
      {
        ok := Call(Write(temp, out.content[i]));
        if !ok {
          GiveUp(temp, out, i + 1, was, before);
          return;
        }
        WritesNext(temp, out.content, i);
        WroteByte(before, temp, out.content, i);
        i := i + 1;
      }
      assert out.content[..i] == out.content;
    }

    /** Replaces one file: a temporary file next to it, synced, then renamed over it. */
    method WriteAtomic(out: Output, random: string) returns (ok: bool)
      requires Valid()
      modifies this
      ensures Valid()
      ensures ok ==> calls == old(calls) + Replace(TempFor(out.name, random), out) && files == With(old(files), out)
      ensures Journey(start, old(calls), calls, Replace(TempFor(out.name, random), out))
    {
      var temp := TempFor(out.name, random);
      TempDiffers(out.name, random);
      ghost var was, before := files, calls;
      ok := FillTemp(temp, out);
      if !ok {
        return;
      }
      assert out.content[..|out.content|] == out.content;
      var synced: bool := *;
      if synced {
        ok := Call(Rename(temp, out.name));
      }
      if !synced || !ok {
        ok := false;
        GiveUp(temp, out, |out.content| + 1, was, before);
        return;
      }
      Replaced(start, before, temp, out);
    }

    /** Removes the temporary file after a failure, if that works. */
    method GiveUp(temp: string, out: Output, ghost k: nat, ghost was: Dir, ghost before: seq<Op>)
      requires Valid() && temp !in was && temp != out.name && was == DoAll(start, before)
      requires 0 < k <= |out.content| + 1
      requires calls == before + ([Create(temp)] + Writes(temp, out.content[..k - 1]))
      modifies this
      ensures Valid()
      ensures Journey(start, before, calls, Replace(temp, out))
    {
      ghost var ops := Replace(temp, out);
      WritesPrefix(temp, out.content, k - 1);
      assert ops[..k] == [Create(temp)] + Writes(temp, out.content[..k - 1]);
      assert calls == before + ops[..k];
      PrefixOnPath(was, ops, k);
      CleanupOnPath(was, temp, out, k);
      var removed := Call(Remove(temp));
      assert removed ==> calls == before + (ops[..k] + [Remove(temp)]);
    }

    /** Replaces a file only if its content changes. */
    method WriteIfChanged(out: Output, random: string) returns (ok: bool, wrote: bool)
      requires Valid()
      modifies this
      ensures Valid()
      ensures ok ==> calls == old(calls) + OneOutput(old(files), out, random) && files == With(old(files), out)
                     && wrote == !UpToDate(old(files), out)
      ensures Journey(start, old(calls), calls, OneOutput(old(files), out, random))
    {
      if out.name in files && files[out.name] == File(out.content) {
        NothingOnPath(files, []);
        assert With(files, out) == files;
        return true, false;
      }
      wrote := true;
      ok := WriteAtomic(out, random);
    }

    method WriteNext(outputs: seq<Output>, randoms: seq<string>, i: nat, written: seq<string>, ghost was: Dir,
            ghost before: seq<Op>)
      returns (ok: bool, written': seq<string>)
      requires Valid() && |outputs| == |randoms| && i < |outputs| && was == DoAll(start, before)
      requires WroteFirst(was, before, outputs, randoms, i, files, calls, written)
      modifies this
      ensures Valid()
      ensures ok ==> WroteFirst(was, before, outputs, randoms, i + 1, files, calls, written')
      ensures !ok ==> Journey(start, before, calls, OutputOps(was, outputs, randoms)) && written' == written
    {
      var wrote;
      ok, wrote := WriteIfChanged(outputs[i], randoms[i]);
      if ok {
        WroteNext(was, before, outputs, randoms, i, old(files), old(calls), written);
      } else {
        OutputFails(start, before, was, outputs, randoms, i, old(files), old(calls), written, calls);
      }
      written' := written + (if ok && wrote then [outputs[i].name] else []);
    }

    /** The outputs, one after the other. */
    method WriteOutputs(outputs: seq<Output>, randoms: seq<string>) returns (error: Option<Error>, written: seq<string>)
      requires Valid() && |outputs| == |randoms|
      modifies this
      ensures Valid()
      ensures error.None? ==> WroteFirst(old(files), old(calls), outputs, randoms, |outputs|, files, calls, written)
      ensures Journey(start, old(calls), calls, OutputOps(old(files), outputs, randoms))
    {
      ghost var was, before := files, calls;
      written := [];
      for i := 0 to |outputs|
        invariant Valid()
        invariant WroteFirst(was, before, outputs, randoms, i, files, calls, written)
      {
        var ok;
        ok, written := WriteNext(outputs, randoms, i, written, was, before);
        if !ok {
          return Some(CannotWrite(outputs[i].name)), written;
        }
      }
      JourneyDone(start, before, OutputOps(was, outputs, randoms));
      error := None;
    }

    /** Removes the managed files nothing is rendered for any more. */
    method RemoveUnwanted(names: seq<string>, wanted: set<string>, ghost outputs: seq<Output>)
      returns (error: Option<Error>, removed: seq<string>)
      requires Valid() && (forall n :: n in wanted <==> Wanted(outputs, n))
      modifies this
      ensures Valid()
      ensures error.None? ==> calls == old(calls) + Removals(names, outputs) && removed == Dropped(names, outputs)
      ensures error.None? ==> files == old(files) - Gone(names, outputs)
      ensures Journey(start, old(calls), calls, Removals(names, outputs))
    {
      ghost var was := files;
      removed := [];
      for i := 0 to |names|
        invariant Valid()
        invariant calls == old(calls) + Removals(names[..i], outputs) && removed == Dropped(names[..i], outputs)
      {
        RemovalStep(names, outputs, i);
        if names[i] in wanted {
          continue;
        }
        var ok := Call(Remove(names[i]));
        if !ok {
          RemovalFails(was, names, outputs, i);
          return Some(CannotRemove(names[i])), removed;
        }
        removed := removed + [names[i]];
      }
      assert names[..|names|] == names;
      WholePath(was, Removals(names, outputs));
      DoAllConcat(start, old(calls), Removals(names, outputs));
      RemovalsDone(was, names, outputs);
      error := None;
    }

    /** Validates every output first and changes nothing if one is refused; then replaces what changed and
        removes the rest. Every state the directory passes through, also when a call fails, is one that
        the undisturbed calls pass through. */
    method Apply(prefix: string, outputs: seq<Output>, randoms: seq<string>)
      returns (error: Option<Error>, written: seq<string>, removed: seq<string>)
      requires Valid() && |outputs| == |randoms|
      modifies this
      ensures Valid()
      ensures prefix == "" ==> error == Some(EmptyPrefix) && calls == old(calls)
      ensures prefix != "" && Refusal(prefix, outputs).Some? ==>
                error == Refusal(prefix, outputs) && calls == old(calls)
      ensures error.None? ==> prefix != "" && Refusal(prefix, outputs).None?
                              && calls == old(calls) + ApplyOps(old(files), prefix, outputs, randoms)
                              && written == Changed(old(files), outputs)
                              && removed ==
                                   Dropped(Strings(Managed(AfterOutputs(old(files), outputs), prefix)), outputs)
                              && files == Target(old(files), prefix, outputs)
      ensures Journey(start, old(calls), calls, ApplyOps(old(files), prefix, outputs, randoms))
    {
      ghost var was := files;
      written, removed := [], [];
      NothingOnPath(was, ApplyOps(was, prefix, outputs, randoms));
      if prefix == "" {
        return Some(EmptyPrefix), [], [];
      }
      error := Check(prefix, outputs);
      if error.Some? {
        return;
      }
      var wanted := WantedNames(outputs);
      error, written := WriteOutputs(outputs, randoms);
      PathGrows(was, calls[|old(calls)|..], OutputOps(was, outputs, randoms),
                RemovalOps(AfterOutputs(was, outputs), prefix, outputs));
      if error.Some? {
        return;
      }
      error, removed := RemoveRest(prefix, wanted, outputs, randoms, was, old(calls));
      if error.None? {
        var synced: bool := *;
        if written + removed != [] && !synced {
          error := Some(CannotSync);
        }
      }
    }

    method RemoveRest(prefix: string, wanted: set<string>, ghost outputs: seq<Output>, ghost randoms: seq<string>,
            ghost was: Dir, ghost before: seq<Op>)
      returns (error: Option<Error>, removed: seq<string>)
      requires Valid() && (forall n :: n in wanted <==> Wanted(outputs, n))
      requires |outputs| == |randoms| && was == DoAll(start, before)
      requires files == AfterOutputs(was, outputs) && calls == before + OutputOps(was, outputs, randoms)
      modifies this
      ensures Valid()
      ensures error.None? ==> calls == before + ApplyOps(was, prefix, outputs, randoms)
                              && removed == Dropped(Strings(Managed(AfterOutputs(was, outputs), prefix)), outputs)
                              && files == Target(was, prefix, outputs)
      ensures Journey(start, before, calls, ApplyOps(was, prefix, outputs, randoms))
    {
      NothingOnPath(files, RemovalOps(files, prefix, outputs));
      var ok, managed := ListManaged(prefix);
      if !ok {
        HalvesOnPath(start, before, was, calls, prefix, outputs, randoms);
        return Some(CannotList), [];
      }
      error, removed := RemoveUnwanted(managed, wanted, outputs);
      ConcatAssociates(before, OutputOps(was, outputs, randoms),
                       RemovalOps(AfterOutputs(was, outputs), prefix, outputs));
      HalvesOnPath(start, before, was, calls, prefix, outputs, randoms);
    }
  }

  method Check(prefix: string, outputs: seq<Output>) returns (error: Option<Error>)
    ensures error == Refusal(prefix, outputs)
  {
    for i := 0 to |outputs|
      invariant Refusal(prefix, outputs[..i]).None?
    {
      assert outputs[..i + 1][..i] == outputs[..i];
      if !(prefix <= outputs[i].name) {
        RefusalStays(prefix, outputs, i + 1);
        return Some(LacksPrefix(outputs[i].name));
      }
      if !Validate(outputs[i].name, outputs[i].content) {
        RefusalStays(prefix, outputs, i + 1);
        return Some(NotValid(outputs[i].name));
      }
    }
    assert outputs[..|outputs|] == outputs;
    error := None;
  }

  method WantedNames(outputs: seq<Output>) returns (wanted: set<string>)
    ensures forall n :: n in wanted <==> Wanted(outputs, n)
  {
    wanted := {};
    for i := 0 to |outputs|
      invariant forall n :: n in wanted <==> exists j :: 0 <= j < i && outputs[j].name == n
    {
      wanted := wanted + {outputs[i].name};
    }
  }

  lemma {:induction false} RefusalStays(prefix: string, outputs: seq<Output>, k: nat)
    requires k <= |outputs| && Refusal(prefix, outputs[..k]).Some?
    ensures Refusal(prefix, outputs) == Refusal(prefix, outputs[..k])
  {
    if k < |outputs| {
      var n := |outputs| - 1;
      assert outputs[..n][..k] == outputs[..k];
      RefusalStays(prefix, outputs[..n], k);
    } else {
      assert outputs[..k] == outputs;
    }
  }

  lemma {:induction false} RemovalsExtend(names: seq<string>, outputs: seq<Output>, i: nat)
    requires i <= |names|
    ensures Removals(names[..i], outputs) <= Removals(names, outputs)
  {
    if i < |names| {
      var n := |names| - 1;
      assert names[..n][..i] == names[..i];
      RemovalsExtend(names[..n], outputs, i);
    } else {
      assert names[..i] == names;
    }
  }

  /** Whatever fails and wherever the process dies, the directory is safe to be left with. */
  lemma {:induction false} EveryPointIsSafe(d: Dir, made: seq<Op>, prefix: string, outputs: seq<Output>,
          randoms: seq<string>, j: nat)
    requires Acceptable(prefix, outputs) && Unobstructed(d, outputs, randoms) && j <= |made|
    requires AllOnPath(d, made, ApplyOps(d, prefix, outputs, randoms))
    ensures CrashSafe(d, DoAll(d, made[..j]), prefix, outputs)
  {
    var ops := ApplyOps(d, prefix, outputs, randoms);
    assert OnPath(d, DoAll(d, made[..j]), ops);
    var k :| 0 <= k <= |ops| && DoAll(d, made[..j]) == DoAll(d, ops[..k]);
    ApplyIsCrashSafe(d, prefix, outputs, randoms, k);
  }
}

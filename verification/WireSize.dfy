/** The size limit counts JSON bytes; what is sent is protobuf. */
module WireSize {
  import opened Snapshot
  import opened Json

  function Sum<T>(xs: seq<T>, size: T -> nat): nat {
    if xs == [] then 0 else Sum(xs[..|xs| - 1], size) + size(xs[|xs| - 1])
  }

  /** Bytes of a character in UTF-8. */
  function Utf8Char(c: char): nat {
    if c as int < 0x80 then 1 else if c as int < 0x800 then 2 else if c as int < 0x10000 then 3 else 4
  }

  /** Bytes of a character in a JSON string. */
  function JsonChar(c: char): nat {
    if c in "\"\\" || c as int in {8, 9, 10, 12, 13} then 2
    else if c as int < 0x20 then 6
    else Utf8Char(c)
  }

  function Utf8(s: string): nat {
    Sum(s, Utf8Char)
  }

  function Escaped(s: string): nat {
    Sum(s, JsonChar)
  }

  /** With its quotation marks. */
  function JsonString(s: string): nat {
    1 + Escaped(s) + 1
  }

  /** The commas between the elements of an array. */
  function Commas(n: nat): nat {
    if n == 0 then 0 else n - 1
  }

  function JsonStrings(ss: seq<string>): nat {
    Sum(ss, JsonString)
  }

  function JsonEntry(e: Entry): nat {
    |"{\"deviceName\":"| + JsonString(e.deviceName) + |",\"ips\":["| + JsonStrings(e.ips) + Commas(|e.ips|) + |"]}"|
  }

  function JsonEntries(es: seq<Entry>): nat {
    Sum(es, JsonEntry)
  }

  function JsonGroup(g: Group): nat {
    |"{\"key\":"| + JsonString(g.key) + |",\"entries\":["| + JsonEntries(g.entries) + Commas(|g.entries|) + |"]}"|
  }

  function JsonGroups(gs: seq<Group>): nat {
    Sum(gs, JsonGroup)
  }

  function JsonSize(c: Content): nat {
    |"{\"providerName\":"| + JsonString(c.providerName) + |",\"groups\":["| + JsonGroups(c.groups) + Commas(|c.groups|)
      + |"]}"|
  }

  /** Seven bits a byte. */
  function Varint(n: nat): nat {
    if n < 128 then 1 else 1 + Varint(n / 128)
  }

  /** A length-delimited field: a tag of one byte, since all field numbers are below 16, the length, the bytes. */
  function Field(n: nat): nat {
    1 + Varint(n) + n
  }

  function WireString(s: string): nat {
    Field(Utf8(s))
  }

  function WireStrings(ss: seq<string>): nat {
    Sum(ss, WireString)
  }

  function WireEntry(e: Entry): nat {
    WireString(e.deviceName) + WireStrings(e.ips)
  }

  function EntryField(e: Entry): nat {
    Field(WireEntry(e))
  }

  function WireEntries(es: seq<Entry>): nat {
    Sum(es, EntryField)
  }

  function WireGroup(g: Group): nat {
    WireString(g.key) + WireEntries(g.entries)
  }

  function GroupField(g: Group): nat {
    Field(WireGroup(g))
  }

  function WireGroups(gs: seq<Group>): nat {
    Sum(gs, GroupField)
  }

  function WireSize(c: Content): nat {
    WireString(c.providerName) + WireGroups(c.groups)
  }

  const LENGTH_LIMIT := 0x1_0000_0000

  function Power128(k: nat): nat {
    if k == 0 then 1 else 128 * Power128(k - 1)
  }

  lemma {:induction false} PowerIsPositive(k: nat)
    ensures Power128(k) >= 1
  {
    if k > 0 {
      PowerIsPositive(k - 1);
    }
  }

  /** A number takes k bytes or less exactly if 7 * k bits hold it. */
  lemma {:induction false} VarintBound(n: nat, k: nat)
    requires k > 0
    ensures Varint(n) <= k <==> n < Power128(k)
  {
    PowerIsPositive(k - 1);
    if 128 <= n && k > 1 {
      VarintBound(n / 128, k - 1);
    }
  }

  lemma {:induction false} Lengths(n: nat)
    ensures n < 128 * 128 ==> Varint(n) <= 2
    ensures n < LENGTH_LIMIT ==> Varint(n) <= 5
  {
    assert Power128(2) == 128 * 128;
    assert Power128(3) == 128 * Power128(2);
    assert Power128(5) == 128 * 128 * Power128(3);
    if n < 128 * 128 {
      VarintBound(n, 2);
    }
    if n < LENGTH_LIMIT {
      VarintBound(n, 5);
    }
  }

  lemma {:induction false} EscapedIsLonger(s: string)
    ensures Utf8(s) <= Escaped(s)
  {
    if s != [] {
      EscapedIsLonger(s[..|s| - 1]);
    }
  }

  // ---- The size is that of the text

  lemma {:induction false} SumConcat<T>(a: seq<T>, b: seq<T>, size: T -> nat)
    ensures Sum(a + b, size) == Sum(a, size) + Sum(b, size)
  {
    if b == [] {
      assert a + b == a;
    } else {
      SumConcat(a, b[..|b| - 1], size);
      assert (a + b)[..|a + b| - 1] == a + b[..|b| - 1];
    }
  }

  lemma {:induction false} SumFromHead<T>(xs: seq<T>, size: T -> nat)
    requires xs != []
    ensures Sum(xs, size) == size(xs[0]) + Sum(xs[1..], size)
  {
    assert xs == [xs[0]] + xs[1..];
    SumConcat([xs[0]], xs[1..], size);
    SumOfOne(xs[0], size);
  }

  lemma {:induction false} Concat(a: string, b: string)
    ensures Utf8(a + b) == Utf8(a) + Utf8(b)
  {
    SumConcat(a, b, Utf8Char);
  }

  predicate Ascii(s: string) {
    forall c :: c in s ==> c as int < 0x80
  }

  lemma {:induction false} PlainAt(s: string)
    requires forall i :: 0 <= i < |s| ==> s[i] as int < 0x80
    ensures Utf8(s) == |s|
  {
    if s != [] {
      PlainAt(s[..|s| - 1]);
    }
  }

  lemma {:induction false} Plain(s: string)
    ensures Ascii(s) ==> Utf8(s) == |s|
  {
    if Ascii(s) {
      forall i | 0 <= i < |s| ensures s[i] as int < 0x80 {
        assert s[i] in s;
      }
      PlainAt(s);
    }
  }

  lemma {:induction false} EscapeSize(c: char)
    ensures Utf8(Escape(c)) == JsonChar(c)
  {
    Plain(Escape(c));
    if |Escape(c)| == 1 {
      SumOfOne(c, Utf8Char);
    }
  }

  lemma {:induction false} CharsSize(s: string)
    ensures Utf8(Chars(s)) == Escaped(s)
  {
    if s != [] {
      SumFromHead(s, JsonChar);
      CharsSize(s[1..]);
      Concat(Escape(s[0]), Chars(s[1..]));
      EscapeSize(s[0]);
      hide Sum, JsonChar, Escape;
    }
  }

  lemma {:induction false} QuotedSize(s: string)
    ensures Utf8(Quoted(s)) == JsonString(s)
  {
    CharsSize(s);
    Plain("\"");
    Concat(Chars(s), "\"");
    Concat("\"", Chars(s) + "\"");
    hide Sum, Escaped, Chars, Utf8;
  }

  lemma {:induction false} RestSize<T>(xs: seq<T>, text: T -> string, size: T -> nat)
    requires forall x :: x in xs ==> Utf8(text(x)) == size(x)
    ensures Utf8(Rest(xs, text)) == Sum(xs, size) + |xs| + 1
  {
    hide Utf8;
    if xs == [] {
      Plain("]");
    } else {
      RestSize(xs[1..], text, size);
      SumFromHead(xs, size);
      Plain(",");
      Concat(text(xs[0]), Rest(xs[1..], text));
      Concat(",", text(xs[0]) + Rest(xs[1..], text));
    }
  }

  lemma {:induction false} ListSize<T>(xs: seq<T>, text: T -> string, size: T -> nat)
    requires forall x :: x in xs ==> Utf8(text(x)) == size(x)
    ensures Utf8(ArrayText(xs, text)) == 2 + Sum(xs, size) + Commas(|xs|)
  {
    hide Utf8;
    if xs == [] {
      Plain("[]");
    } else {
      RestSize(xs[1..], text, size);
      SumFromHead(xs, size);
      Plain("[");
      Concat(text(xs[0]), Rest(xs[1..], text));
      Concat("[", text(xs[0]) + Rest(xs[1..], text));
    }
  }

  lemma {:induction false} ObjectSize<T>(head: string, s: string, mid: string, xs: seq<T>, text: T -> string,
          size: T -> nat)
    requires forall x :: x in xs ==> Utf8(text(x)) == size(x)
    requires Ascii(head) && Ascii(mid)
    ensures Utf8(Object(head, s, mid, xs, text)) ==
            |head| + JsonString(s) + |mid| + 2 + Sum(xs, size) + Commas(|xs|) + 1
  {
    Plain(head);
    Plain(mid);
    hide Utf8, JsonString, Quoted, ArrayText, Sum;
    var list := ArrayText(xs, text);
    ListSize(xs, text, size);
    QuotedSize(s);
    Plain("}");
    Concat(list, "}");
    Concat(mid, list + "}");
    Concat(Quoted(s), mid + (list + "}"));
    Concat(head, Quoted(s) + (mid + (list + "}")));
  }

  lemma {:induction false} EntrySize(e: Entry)
    ensures Utf8(EntryText(e)) == JsonEntry(e)
  {
    forall ip: string ensures Utf8(Quoted(ip)) == JsonString(ip) {
      QuotedSize(ip);
    }
    hide Utf8, JsonString, Quoted, Sum, Object;
    ObjectSize("{\"deviceName\":", e.deviceName, ",\"ips\":", e.ips, Quoted, JsonString);
  }

  lemma {:induction false} GroupSize(g: Group)
    ensures Utf8(GroupText(g)) == JsonGroup(g)
  {
    forall e: Entry ensures Utf8(EntryText(e)) == JsonEntry(e) {
      EntrySize(e);
    }
    hide Utf8, JsonString, EntryText, JsonEntry, Sum, Object;
    ObjectSize("{\"key\":", g.key, ",\"entries\":", g.entries, EntryText, JsonEntry);
  }

  /** The size the limit is checked on is the number of UTF-8 bytes of the canonical JSON. */
  lemma {:induction false} SizeIsOfText(c: Content)
    ensures JsonSize(c) == Utf8(Text(c))
  {
    forall g: Group ensures Utf8(GroupText(g)) == JsonGroup(g) {
      GroupSize(g);
    }
    hide Utf8, JsonString, GroupText, JsonGroup, Sum, Object;
    ObjectSize("{\"providerName\":", c.providerName, ",\"groups\":", c.groups, GroupText, JsonGroup);
  }

  /** Few addresses, or no long ones. */
  ghost predicate Modest(e: Entry) {
    |e.ips| <= 4 || forall i :: 0 <= i < |e.ips| ==> Utf8(e.ips[i]) < 128 * 128
  }

  lemma {:induction false} StringsFit(ss: seq<string>)
    requires JsonStrings(ss) < LENGTH_LIMIT
    ensures WireStrings(ss) <= JsonStrings(ss) + 4 * |ss|
    ensures (forall i :: 0 <= i < |ss| ==> Utf8(ss[i]) < 128 * 128) ==> WireStrings(ss) <= JsonStrings(ss) + |ss|
  {
    if ss != [] {
      StringsFit(ss[..|ss| - 1]);
      EscapedIsLonger(ss[|ss| - 1]);
      Lengths(Utf8(ss[|ss| - 1]));
      assert forall i :: 0 <= i < |ss| - 1 ==> ss[..|ss| - 1][i] == ss[i];
    }
  }

  lemma {:induction false} EntryFits(e: Entry)
    requires Modest(e) && JsonEntry(e) < LENGTH_LIMIT
    ensures Field(WireEntry(e)) <= JsonEntry(e)
  {
    StringsFit(e.ips);
    EscapedIsLonger(e.deviceName);
    Lengths(Utf8(e.deviceName));
    assert WireEntry(e) + 6 <= JsonEntry(e);
    Lengths(WireEntry(e));
  }

  lemma {:induction false} EntriesFit(es: seq<Entry>)
    requires (forall i :: 0 <= i < |es| ==> Modest(es[i])) && JsonEntries(es) < LENGTH_LIMIT
    ensures WireEntries(es) <= JsonEntries(es)
  {
    if es != [] {
      assert forall i :: 0 <= i < |es| - 1 ==> es[..|es| - 1][i] == es[i];
      EntriesFit(es[..|es| - 1]);
      EntryFits(es[|es| - 1]);
    }
  }

  ghost predicate GroupModest(g: Group) {
    forall i :: 0 <= i < |g.entries| ==> Modest(g.entries[i])
  }

  lemma {:induction false} GroupFits(g: Group)
    requires GroupModest(g) && JsonGroup(g) < LENGTH_LIMIT
    ensures Field(WireGroup(g)) <= JsonGroup(g)
  {
    EntriesFit(g.entries);
    EscapedIsLonger(g.key);
    Lengths(Utf8(g.key));
    Lengths(WireGroup(g));
  }

  ghost predicate AllModest(c: Content) {
    forall i :: 0 <= i < |c.groups| ==> GroupModest(c.groups[i])
  }

  lemma {:induction false} GroupsFit(gs: seq<Group>)
    requires forall i :: 0 <= i < |gs| ==> GroupModest(gs[i])
    requires JsonGroups(gs) < LENGTH_LIMIT
    ensures WireGroups(gs) <= JsonGroups(gs)
  {
    if gs != [] {
      assert forall i :: 0 <= i < |gs| - 1 ==> gs[..|gs| - 1][i] == gs[i];
      GroupsFit(gs[..|gs| - 1]);
      GroupFits(gs[|gs| - 1]);
    }
  }

  /** What is sent is never larger than what the limit was checked on, for entries of at most four addresses,
      or of any number of addresses below sixteen kilobytes. */
  lemma {:induction false} WireFitsJson(c: Content)
    requires AllModest(c) && JsonSize(c) < LENGTH_LIMIT
    ensures WireSize(c) <= JsonSize(c)
  {
    GroupsFit(c.groups);
    EscapedIsLonger(c.providerName);
    Lengths(Utf8(c.providerName));
  }

  lemma {:induction false} ListedAreModest(ids: seq<string>, w: World)
    requires forall i :: 0 <= i < |ids| ==> InfoIn(w)(ids[i]).Some?
    ensures forall j :: 0 <= j < |ids| ==> Modest(EntriesFor(ids, InfoIn(w))[j])
  {
    EntriesAt(ids, InfoIn(w));
  }

  lemma {:induction false} ListingIsModest(w: World, provider: string, group: string)
    ensures GroupModest(Group(group, EntriesOf(Members(w, provider), InfoIn(w), group)))
  {
    var ids := Listing(Members(w, provider), InfoIn(w), group);
    ListedAreModest(ids, w);
    assert EntriesOf(Members(w, provider), InfoIn(w), group) == EntriesFor(ids, InfoIn(w));
  }

  /** The builder lists at most two addresses per device. */
  lemma {:induction false} BuiltIsModest(w: World, provider: string, name: string)
    ensures AllModest(Content(name, Groups(w, provider)))
  {
    var keys := KeyListing(Members(w, provider), InfoIn(w));
    forall i | 0 <= i < |keys| ensures GroupModest(Groups(w, provider)[i]) {
      GroupAt(keys, Members(w, provider), InfoIn(w), i);
      ListingIsModest(w, provider, keys[i]);
    }
  }

  /** So every snapshot within a limit of 32 bits is within it on the wire. */
  lemma {:induction false} PublishedFitsOnWire(w: World, provider: string, name: string, limit: nat)
    requires limit < LENGTH_LIMIT && JsonSize(Content(name, Groups(w, provider))) <= limit
    ensures WireSize(Content(name, Groups(w, provider))) <= limit
  {
    BuiltIsModest(w, provider, name);
    WireFitsJson(Content(name, Groups(w, provider)));
  }

  // ---- Without the bound it fails

  function Repeated<T>(x: T, n: nat): (s: seq<T>)
    ensures |s| == n
  {
    if n == 0 then [] else Repeated(x, n - 1) + [x]
  }

  lemma {:induction false} OneMore(n: nat, a: nat)
    requires n > 0
    ensures (n - 1) * a + a == n * a
  {
  }

  lemma {:induction false} SumRepeated<T>(x: T, n: nat, size: T -> nat)
    ensures Sum(Repeated(x, n), size) == n * size(x)
  {
    if n > 0 {
      SumRepeated(x, n - 1, size);
      OneMore(n, size(x));
      assert Repeated(x, n)[..n - 1] == Repeated(x, n - 1);
    }
  }

  lemma {:induction false} SumOfOne<T>(x: T, size: T -> nat)
    ensures Sum([x], size) == size(x)
  {
    assert [x][..0] == [];
    assert Sum<T>([], size) == 0;
  }

  lemma {:induction false} Letter(c: char)
    requires 'a' <= c <= 'z'
    ensures Utf8([c]) == 1 && JsonString([c]) == 3
  {
    SumOfOne(c, Utf8Char);
    SumOfOne(c, JsonChar);
  }

  lemma {:induction false} LongAddresses(ips: seq<string>)
    requires ips == Repeated(Repeated('a', 128 * 128), 100)
    ensures |ips| == 100 && JsonStrings(ips) == 100 * 16386 && WireStrings(ips) == 100 * 16388
  {
    var x := Repeated('a', 128 * 128);
    SumRepeated('a', 128 * 128, Utf8Char);
    SumRepeated('a', 128 * 128, JsonChar);
    SumRepeated(x, 100, JsonString);
    SumRepeated(x, 100, WireString);
    hide Sum, Repeated;
    assert Varint(128 * 128) == 3 by {
      assert 128 * 128 / 128 == 128 && 128 / 128 == 1;
    }
  }

  lemma {:induction false} LongEntry(e: Entry)
    requires e.deviceName == "d" && |e.ips| == 100
    requires JsonStrings(e.ips) == 100 * 16386 && WireStrings(e.ips) == 100 * 16388
    ensures JsonEntry(e) <= 1638730 && EntryField(e) >= 1638807
  {
    Letter('d');
    hide Sum, Utf8, JsonString, JsonStrings, WireStrings;
    assert Varint(1638803) == 3 by {
      assert 1638803 / 128 == 12803 && 12803 / 128 == 100;
    }
  }

  lemma {:induction false} LongGroup(g: Group)
    requires g.key == "g" && |g.entries| == 1
    requires JsonEntries(g.entries) <= 1638730 && WireEntries(g.entries) >= 1638807
    ensures JsonGroup(g) <= 1638760 && GroupField(g) >= 1638810
  {
    Letter('g');
    hide Sum, Utf8, JsonString, JsonEntries, WireEntries;
  }

  /** One entry of a hundred addresses of sixteen kilobytes is larger on the wire. */
  lemma {:induction false} ManyLongAddressesDoNotFit()
    ensures var c := Content("p", [Group("g", [Entry("d", Repeated(Repeated('a', 128 * 128), 100))])]);
            JsonSize(c) < WireSize(c)
  {
    var e := Entry("d", Repeated(Repeated('a', 128 * 128), 100));
    var g := Group("g", [e]);
    LongAddresses(e.ips);
    hide Repeated;
    LongEntry(e);
    SumOfOne(e, JsonEntry);
    SumOfOne(e, EntryField);
    LongGroup(g);
    SumOfOne(g, JsonGroup);
    SumOfOne(g, GroupField);
    Letter('p');
    hide Sum, JsonEntry, EntryField, JsonGroup, GroupField, JsonString;
  }
}

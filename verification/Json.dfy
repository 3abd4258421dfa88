/** The canonical JSON of a content, which is what is hashed and what the size limit is checked on. */
module Json {
  import opened Snapshot

  function Hex(n: nat): char
    requires n < 16
  {
    "0123456789abcdef"[n]
  }

  /** A character in a JSON string, with the escapes of section 7 of RFC 8259: two-character escapes where there is
      one, `\u` and four digits for the other control characters, nothing else escaped. */
  function Escape(c: char): (r: string)
    ensures r != [] && r[0] != '"'
  {
    if c == '"' then "\\\""
    else if c == '\\' then "\\\\"
    else if c == '\U{0008}' then "\\b"
    else if c == '\t' then "\\t"
    else if c == '\n' then "\\n"
    else if c == '\U{000C}' then "\\f"
    else if c == '\r' then "\\r"
    else if c as int < 0x20 then "\\u00" + [Hex(c as int / 16), Hex(c as int % 16)]
    else [c]
  }

  /** Only quotation marks, backslashes and control characters are escaped. */
  lemma {:induction false} EscapeSays(c: char)
    ensures c as int >= 0x20 && c != '"' && c != '\\' ==> Escape(c) == [c]
    ensures c == '"' || c == '\\' ==> Escape(c) == ['\\', c]
    ensures Escape('\U{0008}') == "\\b" && Escape('\t') == "\\t" && Escape('\n') == "\\n"
    ensures Escape('\U{000C}') == "\\f" && Escape('\r') == "\\r"
    ensures c as int < 0x20 && c !in "\U{0008}\t\n\U{000C}\r" ==>
              |Escape(c)| == 6 && Escape(c)[..4] == "\\u00" && Escape(c)[4] == (if c as int < 0x10 then '0' else '1')
  {
    assert Hex(0) == '0' && Hex(1) == '1';
  }

  function Chars(s: string): string {
    if s == [] then [] else Escape(s[0]) + Chars(s[1..])
  }

  function Quoted(s: string): string {
    "\"" + (Chars(s) + "\"")
  }

  /** The elements of an array behind the first. */
  function Rest<T>(xs: seq<T>, text: T -> string): string {
    if xs == [] then "]" else "," + (text(xs[0]) + Rest(xs[1..], text))
  }

  function ArrayText<T>(xs: seq<T>, text: T -> string): string {
    if xs == [] then "[]" else "[" + (text(xs[0]) + Rest(xs[1..], text))
  }

  /** An object with a text and a list, between fixed pieces. */
  function Object<T>(head: string, s: string, mid: string, xs: seq<T>, text: T -> string): string {
    head + (Quoted(s) + (mid + (ArrayText(xs, text) + "}")))
  }

  function EntryText(e: Entry): string {
    Object("{\"deviceName\":", e.deviceName, ",\"ips\":", e.ips, Quoted)
  }

  function GroupText(g: Group): string {
    Object("{\"key\":", g.key, ",\"entries\":", g.entries, EntryText)
  }

  function Text(c: Content): string {
    Object("{\"providerName\":", c.providerName, ",\"groups\":", c.groups, GroupText)
  }

  // ---- A text says what it is of

  /** Wherever such a text begins, it can be told what it is of and where it ends. */
  ghost predicate Readable<T(!new)>(text: T -> string) {
    forall x, y, r, r' :: text(x) + r == text(y) + r' ==> x == y && r == r'
  }

  /** No such text begins like the end of an array. */
  ghost predicate Opens<T(!new)>(text: T -> string) {
    forall x :: text(x) != [] && text(x)[0] != ']'
  }

  lemma {:induction false} SamePrefix(a: string, r: string, r': string)
    requires a + r == a + r'
    ensures r == r'
  {
    assert r == (a + r)[|a|..] == (a + r')[|a|..] == r';
  }

  lemma {:induction false} Associates(a: string, b: string, c: string)
    ensures (a + b) + c == a + (b + c)
  {
  }

  lemma {:induction false} HexIsUnique(m: nat, n: nat)
    requires m < 16 && n < 16 && Hex(m) == Hex(n)
    ensures m == n
  {
  }

  lemma {:induction false} EscapeIsReadable(c: char, d: char, r: string, r': string)
    requires Escape(c) + r == Escape(d) + r'
    ensures c == d && r == r'
  {
    var x, y := Escape(c) + r, Escape(d) + r';
    assert x[0] == Escape(c)[0] == Escape(d)[0];
    if |Escape(c)| > 1 {
      assert x[1] == Escape(c)[1] == Escape(d)[1];
    }
    if |Escape(c)| > 2 {
      assert x[4] == Escape(c)[4] == Escape(d)[4] && x[5] == Escape(c)[5] == Escape(d)[5];
      HexIsUnique(c as int / 16, d as int / 16);
      HexIsUnique(c as int % 16, d as int % 16);
    }
    assert c == d;
    SamePrefix(Escape(c), r, r');
  }

  lemma {:induction false} CharsStart(s: string, r: string)
    ensures var x := Chars(s) + ("\"" + r);
            && x != [] && (s == [] <==> x[0] == '"')
            && x == if s == [] then "\"" + r else Escape(s[0]) + (Chars(s[1..]) + ("\"" + r))
  {
    if s != [] {
      Associates(Escape(s[0]), Chars(s[1..]), "\"" + r);
    }
  }

  lemma {:induction false} CharsAreReadable(s: string, t: string, r: string, r': string)
    requires Chars(s) + ("\"" + r) == Chars(t) + ("\"" + r')
    ensures s == t && r == r'
  {
    CharsStart(s, r);
    CharsStart(t, r');
    if s != [] && t != [] {
      EscapeIsReadable(s[0], t[0], Chars(s[1..]) + ("\"" + r), Chars(t[1..]) + ("\"" + r'));
      CharsAreReadable(s[1..], t[1..], r, r');
      assert s == [s[0]] + s[1..] && t == [t[0]] + t[1..];
    } else if s == [] && t == [] {
      SamePrefix("\"", r, r');
    }
  }

  lemma {:induction false} QuotedAreReadable(s: string, t: string, r: string, r': string)
    requires Quoted(s) + r == Quoted(t) + r'
    ensures s == t && r == r'
  {
    Associates("\"", Chars(s) + "\"", r);
    Associates("\"", Chars(t) + "\"", r');
    Associates(Chars(s), "\"", r);
    Associates(Chars(t), "\"", r');
    hide Chars;
    SamePrefix("\"", Chars(s) + ("\"" + r), Chars(t) + ("\"" + r'));
    CharsAreReadable(s, t, r, r');
  }

  lemma {:induction false} QuotedIsReadable()
    ensures Readable(Quoted) && Opens(Quoted)
  {
    forall s, t, r, r' | Quoted(s) + r == Quoted(t) + r' ensures s == t && r == r' {
      QuotedAreReadable(s, t, r, r');
    }
  }

  lemma {:induction false} RestStarts<T(!new)>(xs: seq<T>, text: T -> string, r: string)
    ensures var x := Rest(xs, text) + r;
            && x != [] && (xs == [] <==> x[0] == ']')
            && x == if xs == [] then "]" + r else "," + (text(xs[0]) + (Rest(xs[1..], text) + r))
  {
    if xs != [] {
      Associates(text(xs[0]), Rest(xs[1..], text), r);
      Associates(",", text(xs[0]) + Rest(xs[1..], text), r);
    }
  }

  lemma {:induction false} RestIsReadable<T(!new)>(xs: seq<T>, ys: seq<T>, text: T -> string, r: string, r': string)
    requires Readable(text) && Rest(xs, text) + r == Rest(ys, text) + r'
    ensures xs == ys && r == r'
  {
    RestStarts(xs, text, r);
    RestStarts(ys, text, r');
    if xs != [] && ys != [] {
      SamePrefix(",", text(xs[0]) + (Rest(xs[1..], text) + r), text(ys[0]) + (Rest(ys[1..], text) + r'));
      RestIsReadable(xs[1..], ys[1..], text, r, r');
      assert xs == [xs[0]] + xs[1..] && ys == [ys[0]] + ys[1..];
    } else if xs == [] && ys == [] {
      SamePrefix("]", r, r');
    }
  }

  lemma {:induction false} ListStarts<T(!new)>(xs: seq<T>, text: T -> string, r: string)
    requires Opens(text)
    ensures var x := ArrayText(xs, text) + r;
            && |x| > 1 && (xs == [] <==> x[1] == ']')
            && x == if xs == [] then "[]" + r else "[" + (text(xs[0]) + (Rest(xs[1..], text) + r))
  {
    if xs != [] {
      Associates(text(xs[0]), Rest(xs[1..], text), r);
      Associates("[", text(xs[0]) + Rest(xs[1..], text), r);
      hide Rest;
      assert (ArrayText(xs, text) + r)[1] == text(xs[0])[0];
    }
  }

  lemma {:induction false} ListIsReadable<T(!new)>(xs: seq<T>, ys: seq<T>, text: T -> string, r: string, r': string)
    requires Readable(text) && Opens(text) && ArrayText(xs, text) + r == ArrayText(ys, text) + r'
    ensures xs == ys && r == r'
  {
    ListStarts(xs, text, r);
    ListStarts(ys, text, r');
    hide ArrayText, Rest, Opens;
    if xs != [] && ys != [] {
      SamePrefix("[", text(xs[0]) + (Rest(xs[1..], text) + r), text(ys[0]) + (Rest(ys[1..], text) + r'));
      RestIsReadable(xs[1..], ys[1..], text, r, r');
      assert xs == [xs[0]] + xs[1..] && ys == [ys[0]] + ys[1..];
    } else if xs == [] && ys == [] {
      SamePrefix("[]", r, r');
    }
  }

  lemma {:induction false} ObjectStarts<T(!new)>(head: string, s: string, mid: string, xs: seq<T>, text: T -> string,
          r: string)
    ensures Object(head, s, mid, xs, text) + r == head + (Quoted(s) + (mid + (ArrayText(xs, text) + ("}" + r))))
  {
    Associates(ArrayText(xs, text), "}", r);
    Associates(mid, ArrayText(xs, text) + "}", r);
    Associates(Quoted(s), mid + (ArrayText(xs, text) + "}"), r);
    hide Quoted, ArrayText;
    Associates(head, Quoted(s) + (mid + (ArrayText(xs, text) + "}")), r);
  }

  lemma {:induction false} ObjectIsReadable<T(!new)>(head: string, s: string, t: string, mid: string, xs: seq<T>,
          ys: seq<T>, text: T -> string, r: string, r': string)
    requires Readable(text) && Opens(text)
    requires Object(head, s, mid, xs, text) + r == Object(head, t, mid, ys, text) + r'
    ensures s == t && xs == ys && r == r'
  {
    ObjectStarts(head, s, mid, xs, text, r);
    ObjectStarts(head, t, mid, ys, text, r');
    hide Object;
    var x, y := ArrayText(xs, text) + ("}" + r), ArrayText(ys, text) + ("}" + r');
    SamePrefix(head, Quoted(s) + (mid + x), Quoted(t) + (mid + y));
    QuotedAreReadable(s, t, mid + x, mid + y);
    hide Quoted;
    SamePrefix(mid, x, y);
    ListIsReadable(xs, ys, text, "}" + r, "}" + r');
    SamePrefix("}", r, r');
  }

  lemma {:induction false} EntryIsReadable()
    ensures Readable(EntryText) && Opens(EntryText)
  {
    QuotedIsReadable();
    forall x, y, r, r' | EntryText(x) + r == EntryText(y) + r' ensures x == y && r == r' {
      ObjectIsReadable("{\"deviceName\":", x.deviceName, y.deviceName, ",\"ips\":", x.ips, y.ips, Quoted, r, r');
    }
  }

  lemma {:induction false} GroupIsReadable()
    ensures Readable(GroupText) && Opens(GroupText)
  {
    EntryIsReadable();
    forall x, y, r, r' | GroupText(x) + r == GroupText(y) + r' ensures x == y && r == r' {
      ObjectIsReadable("{\"key\":", x.key, y.key, ",\"entries\":", x.entries, y.entries, EntryText, r, r');
    }
  }

  /** Equal JSON means equal content. */
  lemma {:induction false} TextIsUnique(c: Content, d: Content)
    ensures Text(c) == Text(d) <==> c == d
  {
    if Text(c) == Text(d) {
      GroupIsReadable();
      ObjectIsReadable("{\"providerName\":", c.providerName, d.providerName, ",\"groups\":", c.groups, d.groups,
                        GroupText, "", "");
    }
  }
}

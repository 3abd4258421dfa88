/** The content of a provider's snapshot: which devices it lists under which group, in canonical order. */
module Snapshot {
  import opened Options
  import opened Ordering
  import Action
  import IpClient

  datatype Entry = Entry(deviceName: string, ips: seq<string>)

  datatype Group = Group(key: string, entries: seq<Entry>)

  datatype Content = Content(providerName: string, groups: seq<Group>)

  /** The replayed aggregates of one account. */
  datatype World = World(actions: map<string, Action.State>, devices: map<string, IpClient.State>)

  datatype Membership = Membership(group: string, device: string)

  datatype Info = Info(name: string, ips: seq<string>)

  predicate IsSpace(c: char) {
    c in "\t\n\r \U{000B}\U{000C}\U{00A0}\U{1680}\U{2028}\U{2029}\U{202F}\U{205F}\U{3000}\U{FEFF}"
    || '\U{2000}' <= c <= '\U{200A}'
  }

  function Trim(s: string): string {
    if s == [] then s
    else if IsSpace(s[0]) then Trim(s[1..])
    else if IsSpace(s[|s| - 1]) then Trim(s[..|s| - 1])
    else s
  }

  function IpsOf(ip: Option<string>): seq<string> {
    if Present(ip) then [ip.value] else []
  }

  /** The (group, device) an action puts into this provider's snapshot, if it puts one. */
  function Member(a: Action.State, provider: string): Option<Membership> {
    if a.kind != Some(Action.TraefikDelivery) || a.status != Action.Enabled || !Present(a.ipClientId) then None
    else if a.config.None? || !a.config.value.Delivery? || a.config.value.traefikProviderId != provider then None
    else Some(Membership(a.config.value.group, a.ipClientId.value))
  }

  /** What a snapshot says about a device, if it is usable: enabled and with a known address. */
  function InfoOf(id: string, d: IpClient.State): Option<Info> {
    var ips := IpsOf(d.lastKnownIPv4) + IpsOf(d.lastKnownIPv6);
    if d.status == IpClient.Enabled && ips != [] then
      Some(Info(if Trim(d.deviceLabel) != "" then Trim(d.deviceLabel) else id, ips))
    else None
  }

  /** Loading a stream that does not exist replays to the initial state. */
  function Device(w: World, id: string): IpClient.State {
    if id in w.devices then w.devices[id] else IpClient.INITIAL
  }

  function InfoIn(w: World): string -> Option<Info> {
    id => InfoOf(id, Device(w, id))
  }

  ghost function Members(w: World, provider: string): (s: set<Membership>)
    ensures forall m :: m in s <==> exists a :: a in w.actions && Member(w.actions[a], provider) == Some(m)
  {
    set a | a in w.actions && Member(w.actions[a], provider).Some? :: Member(w.actions[a], provider).value
  }

  /** The devices listed under a group. */
  ghost function Listed(members: set<Membership>, info: string -> Option<Info>, group: string): set<string> {
    set m | m in members && m.group == group && info(m.device).Some? :: m.device
  }

  ghost function Keys(members: set<Membership>, info: string -> Option<Info>): set<string> {
    set m | m in members && info(m.device).Some? :: m.group
  }

  function NameOf(info: string -> Option<Info>): string -> string {
    id => if info(id).Some? then info(id).value.name else ""
  }

  function EntryOf(info: Info): Entry { Entry(info.name, info.ips) }

  /** A group's devices in canonical order. */
  ghost function Listing(members: set<Membership>, info: string -> Option<Info>, group: string): (ids: seq<string>)
    ensures forall i :: 0 <= i < |ids| ==> ids[i] in Listed(members, info, group)
  {
    NamedList(NameOf(info), Listed(members, info, group));
    Named(NameOf(info), Listed(members, info, group))
  }

  ghost function EntriesFor(ids: seq<string>, info: string -> Option<Info>): (s: seq<Entry>)
    requires forall i :: 0 <= i < |ids| ==> info(ids[i]).Some?
    ensures |s| == |ids|
  {
    if ids == [] then [] else EntriesFor(ids[..|ids| - 1], info) + [EntryOf(info(ids[|ids| - 1]).value)]
  }

  lemma {:induction false} EntriesAt(ids: seq<string>, info: string -> Option<Info>)
    requires forall i :: 0 <= i < |ids| ==> info(ids[i]).Some?
    ensures forall i :: 0 <= i < |ids| ==> EntriesFor(ids, info)[i] == EntryOf(info(ids[i]).value)
  {
    if ids != [] {
      EntriesAt(ids[..|ids| - 1], info);
    }
  }

  ghost function EntriesOf(members: set<Membership>, info: string -> Option<Info>, group: string): seq<Entry> {
    EntriesFor(Listing(members, info, group), info)
  }

  ghost function KeyListing(members: set<Membership>, info: string -> Option<Info>): seq<string> {
    Strings(Keys(members, info))
  }

  ghost function GroupsFor(keys: seq<string>, members: set<Membership>, info: string -> Option<Info>): (s: seq<Group>)
    ensures |s| == |keys|
    ensures forall i :: 0 <= i < |keys| ==> s[i].key == keys[i]
  {
    if keys == [] then [] else
      var last := keys[|keys| - 1];
      GroupsFor(keys[..|keys| - 1], members, info) + [Group(last, EntriesOf(members, info, last))]
  }

  lemma {:induction false} GroupAt(keys: seq<string>, members: set<Membership>, info: string -> Option<Info>, i: nat)
    requires i < |keys|
    ensures GroupsFor(keys, members, info)[i] == Group(keys[i], EntriesOf(members, info, keys[i]))
  {
    if i < |keys| - 1 {
      GroupAt(keys[..|keys| - 1], members, info, i);
    }
  }

  ghost function GroupsOf(members: set<Membership>, info: string -> Option<Info>): seq<Group> {
    GroupsFor(KeyListing(members, info), members, info)
  }

  /** The groups a provider's snapshot must show for this state of the account. */
  ghost function Groups(w: World, provider: string): seq<Group> {
    GroupsOf(Members(w, provider), InfoIn(w))
  }

  lemma {:induction false} EntriesAgree(members: set<Membership>, info: string -> Option<Info>,
          info': string -> Option<Info>, group: string)
    requires forall m :: m in members ==> info(m.device) == info'(m.device)
    ensures Listed(members, info, group) == Listed(members, info', group)
    ensures EntriesOf(members, info, group) == EntriesOf(members, info', group)
  {
    forall d ensures Membership(group, d) in members ==> info(d) == info'(d) {
      assert Membership(group, d).device == d;
    }
    var s := Listed(members, info, group);
    NamedAgree(NameOf(info), NameOf(info'), s);
    var ids := Listing(members, info, group);
    EntriesForAgree(ids, info, info');
  }

  lemma {:induction false} EntriesForAgree(ids: seq<string>, info: string -> Option<Info>,
          info': string -> Option<Info>)
    requires forall i :: 0 <= i < |ids| ==> info(ids[i]).Some? && info(ids[i]) == info'(ids[i])
    ensures EntriesFor(ids, info) == EntriesFor(ids, info')
  {
    if ids != [] {
      EntriesForAgree(ids[..|ids| - 1], info, info');
    }
  }

  lemma {:induction false} GroupsForAgree(keys: seq<string>, members: set<Membership>, info: string -> Option<Info>,
          info': string -> Option<Info>)
    requires forall m :: m in members ==> info(m.device) == info'(m.device)
    ensures GroupsFor(keys, members, info) == GroupsFor(keys, members, info')
  {
    if keys != [] {
      EntriesAgree(members, info, info', keys[|keys| - 1]);
      GroupsForAgree(keys[..|keys| - 1], members, info, info');
    }
  }

  /** Only what is known about the member devices matters. */
  lemma {:induction false} GroupsAgree(members: set<Membership>, info: string -> Option<Info>,
          info': string -> Option<Info>)
    requires forall m :: m in members ==> info(m.device) == info'(m.device)
    ensures GroupsOf(members, info) == GroupsOf(members, info')
  {
    assert Keys(members, info) == Keys(members, info');
    GroupsForAgree(KeyListing(members, info), members, info, info');
  }

  // ---- What the content says, in terms of the replayed actions and devices

  /** The action is an enabled delivery of this device to this group of this provider. */
  predicate Delivers(a: Action.State, provider: string, group: string, device: string) {
    && a.kind == Some(Action.TraefikDelivery) && a.status == Action.Enabled
    && a.ipClientId == Some(device) && device != ""
    && a.config == Some(Action.Delivery(provider, group))
  }

  /** An enabled delivery action of the provider names the device with this group, and the device is enabled with
      a known address. */
  ghost predicate IsDelivered(w: World, provider: string, group: string, device: string) {
    && (exists a :: a in w.actions && Delivers(w.actions[a], provider, group, device))
    && device in w.devices
    && w.devices[device].status == IpClient.Enabled
    && Addresses(w.devices[device]) != []
  }

  /** The known addresses of a device, the IPv4 one first. */
  function Addresses(d: IpClient.State): seq<string> {
    match (d.lastKnownIPv4, d.lastKnownIPv6)
    case (None, None) => []
    case (Some(a), None) => if a == "" then [] else [a]
    case (None, Some(b)) => if b == "" then [] else [b]
    case (Some(a), Some(b)) =>
      if a == "" && b == "" then [] else if b == "" then [a] else if a == "" then [b] else [a, b]
  }

  /** White space and line terminators as the language defines them. */
  predicate Blank(c: char) {
    || '\t' <= c <= '\r' || c == ' ' || c == '\U{00A0}' || c == '\U{1680}' || '\U{2000}' <= c <= '\U{200A}'
    || '\U{2028}' <= c <= '\U{2029}' || c == '\U{202F}' || c == '\U{205F}' || c == '\U{3000}' || c == '\U{FEFF}'
  }

  predicate AllBlank(s: string) {
    forall i :: 0 <= i < |s| ==> Blank(s[i])
  }

  /** The text without the white space around it. */
  ghost predicate TrimmedTo(s: string, t: string) {
    && (t != [] ==> !Blank(t[0]) && !Blank(t[|t| - 1]))
    && exists before, after :: s == before + t + after && AllBlank(before) && AllBlank(after)
  }

  /** A device goes by its label without the white space around it, or by its id if nothing else is left. */
  ghost predicate GoesBy(id: string, d: IpClient.State, name: string) {
    exists text :: TrimmedTo(d.deviceLabel, text) && name == if text == "" then id else text
  }

  lemma {:induction false} SpacesAreBlank(c: char)
    ensures IsSpace(c) <==> Blank(c)
  {
  }

  lemma {:induction false} PadsAround(s: string, t: string, before: string, after: string)
    requires s == before + t + after && AllBlank(before) && AllBlank(after)
    ensures forall c :: Blank(c) ==>
              && [c] + s == ([c] + before) + t + after && AllBlank([c] + before)
              && s + [c] == before + t + (after + [c]) && AllBlank(after + [c])
  {
    hide Blank;
  }

  lemma {:induction false} TrimmedToo(s: string, t: string, c: char)
    requires TrimmedTo(s, t) && Blank(c)
    ensures TrimmedTo([c] + s, t) && TrimmedTo(s + [c], t)
  {
    var before, after :| s == before + t + after && AllBlank(before) && AllBlank(after);
    PadsAround(s, t, before, after);
    hide Blank, AllBlank;
  }

  lemma {:induction false} NothingToTrim(s: string)
    requires s != [] ==> !Blank(s[0]) && !Blank(s[|s| - 1])
    ensures TrimmedTo(s, s)
  {
    var none: string := [];
    assert s == none + s + none && AllBlank(none);
  }

  lemma {:induction false} TrimTrims(s: string)
    ensures TrimmedTo(s, Trim(s))
    decreases |s|
  {
    hide TrimmedTo, IsSpace, Blank;
    if s == [] {
      NothingToTrim(s);
    } else {
      SpacesAreBlank(s[0]);
      SpacesAreBlank(s[|s| - 1]);
      if IsSpace(s[0]) {
        TrimTrims(s[1..]);
        TrimmedToo(s[1..], Trim(s[1..]), s[0]);
        assert s == [s[0]] + s[1..];
      } else if IsSpace(s[|s| - 1]) {
        TrimTrims(s[..|s| - 1]);
        TrimmedToo(s[..|s| - 1], Trim(s[..|s| - 1]), s[|s| - 1]);
        assert s == s[..|s| - 1] + [s[|s| - 1]];
      } else {
        NothingToTrim(s);
      }
    }
  }

  /** There is only one. */
  lemma {:induction false} TrimIsUnique(s: string, t: string, t': string)
    requires TrimmedTo(s, t) && TrimmedTo(s, t')
    ensures t == t'
  {
    var a, b :| s == a + t + b && AllBlank(a) && AllBlank(b);
    var a', b' :| s == a' + t' + b' && AllBlank(a') && AllBlank(b');
    hide AllBlank, Blank;
    if t != [] && t' != [] {
      StartsAt(s, a, t, b, a', t', b');
      StartsAt(s, a', t', b', a, t, b);
      EndsAt(s, a, t, b, a', t', b');
      EndsAt(s, a', t', b', a, t, b);
      assert t == s[|a|..|a| + |t|] && t' == s[|a'|..|a'| + |t'|];
    } else if t != [] {
      NothingElse(s, a, t, b, a', b');
    } else if t' != [] {
      NothingElse(s, a', t', b', a, b);
    }
  }

  lemma {:induction false} StartsAt(s: string, a: string, t: string, b: string, a': string, t': string, b': string)
    requires s == a + t + b && s == a' + t' + b' && AllBlank(a') && t != []
    ensures |a| < |a'| ==> Blank(t[0])
  {
    hide Blank;
    if |a| < |a'| {
      assert s[|a|] == t[0] && s[|a|] == a'[|a|];
    }
  }

  lemma {:induction false} EndsAt(s: string, a: string, t: string, b: string, a': string, t': string, b': string)
    requires s == a + t + b && s == a' + t' + b' && AllBlank(b') && t != []
    ensures |b| < |b'| ==> Blank(t[|t| - 1])
  {
    hide Blank;
    if |b| < |b'| {
      var k := |a| + |t| - 1;
      assert s[k] == t[|t| - 1] && s[k] == b'[k - |a'| - |t'|];
    }
  }

  lemma {:induction false} NothingElse(s: string, a: string, t: string, b: string, a': string, b': string)
    requires s == a + t + b && s == a' + [] + b' && AllBlank(a') && AllBlank(b') && t != []
    ensures Blank(t[0])
  {
    assert s[|a|] == t[0];
    assert s[|a|] == if |a| < |a'| then a'[|a|] else b'[|a| - |a'|];
  }

  lemma {:induction false} NameIsUnique(id: string, d: IpClient.State, name: string, name': string)
    requires GoesBy(id, d, name) && GoesBy(id, d, name')
    ensures name == name'
  {
    var text :| TrimmedTo(d.deviceLabel, text) && name == if text == "" then id else text;
    var text' :| TrimmedTo(d.deviceLabel, text') && name' == if text' == "" then id else text';
    TrimIsUnique(d.deviceLabel, text, text');
  }

  lemma {:induction false} MemberSays(a: Action.State, provider: string, group: string, device: string)
    ensures Member(a, provider) == Some(Membership(group, device)) <==> Delivers(a, provider, group, device)
  {
  }

  /** What is known of a device: its addresses and its name, if it is enabled and has an address. */
  lemma {:induction false} InfoSays(id: string, d: IpClient.State)
    ensures InfoOf(id, d).Some? <==> d.status == IpClient.Enabled && Addresses(d) != []
    ensures InfoOf(id, d).Some? ==> InfoOf(id, d).value.ips == Addresses(d) && GoesBy(id, d, InfoOf(id, d).value.name)
  {
    TrimTrims(d.deviceLabel);
    hide Trim, TrimmedTo;
  }

  lemma {:induction false} ListedMeansDelivered(w: World, provider: string, group: string, device: string)
    ensures device in Listed(Members(w, provider), InfoIn(w), group) <==> IsDelivered(w, provider, group, device)
  {
    var members := Members(w, provider);
    InfoSays(device, Device(w, device));
    hide InfoOf, Member, Delivers, Addresses;
    if device in Listed(members, InfoIn(w), group) {
      var m :| m in members && m.group == group && m.device == device;
      assert m == Membership(group, device);
      var a :| a in w.actions && Member(w.actions[a], provider) == Some(m);
      MemberSays(w.actions[a], provider, group, device);
      NobodyIsUnknown(w, device);
    }
    if IsDelivered(w, provider, group, device) {
      var a :| a in w.actions && Delivers(w.actions[a], provider, group, device);
      MemberSays(w.actions[a], provider, group, device);
      assert Membership(group, device) in members;
      assert Membership(group, device).device == device;
    }
  }

  lemma {:induction false} NobodyIsUnknown(w: World, device: string)
    requires Addresses(Device(w, device)) != []
    ensures device in w.devices
  {
  }

  /** A group that should list a device is there... */
  lemma {:induction false} GroupAppears(w: World, provider: string, group: string, device: string) returns (i: nat)
    requires IsDelivered(w, provider, group, device)
    ensures i < |Groups(w, provider)| && Groups(w, provider)[i].key == group
  {
    ListedMeansDelivered(w, provider, group, device);
    var keys := Keys(Members(w, provider), InfoIn(w));
    KeyOfListed(Members(w, provider), InfoIn(w), group, device);
    StringsList(keys);
    i :| i < |Strings(keys)| && Strings(keys)[i] == group;
  }

  lemma {:induction false} KeyOfListed(members: set<Membership>, info: string -> Option<Info>, group: string,
          device: string)
    requires device in Listed(members, info, group)
    ensures group in Keys(members, info)
  {
    var m :| m in members && m.group == group && m.device == device;
  }

  /** One device comes before another: its name does in the collation, or the names compare equal and its id does
      by code unit. */
  ghost predicate ComesFirst(w: World, a: string, b: string) {
    && a in w.devices && b in w.devices
    && exists x, y :: NamesInOrder(w.devices[a], w.devices[b], a, b, x, y)
  }

  ghost predicate NamesInOrder(d: IpClient.State, e: IpClient.State, a: string, b: string, x: string, y: string) {
    && GoesBy(a, d, x) && GoesBy(b, e, y)
    && (COLLATION_KEY(x) < COLLATION_KEY(y) || (COLLATION_KEY(x) == COLLATION_KEY(y) && Precedes(a, b)))
  }

  /** The ids are those of exactly the devices delivered under the group, by name and then by id. */
  ghost predicate Canonical(w: World, provider: string, group: string, ids: seq<string>) {
    && (forall d :: d in ids <==> IsDelivered(w, provider, group, d))
    && (forall i, j :: 0 <= i < j < |ids| ==> ComesFirst(w, ids[i], ids[j]))
  }

  lemma {:induction false} EarlierComesFirst(w: World, a: string, b: string)
    requires a in w.devices && b in w.devices && InfoIn(w)(a).Some? && InfoIn(w)(b).Some?
    ensures ByName(NameOf(InfoIn(w)))(a, b) <==> ComesFirst(w, a, b)
  {
    var x, y := InfoIn(w)(a).value.name, InfoIn(w)(b).value.name;
    InfoSays(a, w.devices[a]);
    InfoSays(b, w.devices[b]);
    BeforeSays(a, b);
    hide InfoOf, GoesBy, Before, Precedes;
    assert NamesInOrder(w.devices[a], w.devices[b], a, b, x, y) <==> ByName(NameOf(InfoIn(w)))(a, b);
    if ComesFirst(w, a, b) {
      var x', y' :| NamesInOrder(w.devices[a], w.devices[b], a, b, x', y');
      NameIsUnique(a, w.devices[a], x, x');
      NameIsUnique(b, w.devices[b], y, y');
    }
  }

  lemma {:induction false} DeliveredIsKnown(w: World, provider: string, group: string, d: string)
    requires IsDelivered(w, provider, group, d)
    ensures d in w.devices && InfoIn(w)(d).Some?
  {
    InfoSays(d, w.devices[d]);
  }

  lemma {:induction false} ListingIsCanonical(w: World, provider: string, group: string)
    ensures Canonical(w, provider, group, Listing(Members(w, provider), InfoIn(w), group))
  {
    ListingSays(w, provider, group);
    hide *;
    AscendingIsCanonical(w, provider, group, Listing(Members(w, provider), InfoIn(w), group));
  }

  lemma {:induction false} AscendingIsCanonical(w: World, provider: string, group: string, ids: seq<string>)
    requires Ascending(ByName(NameOf(InfoIn(w))), ids) && forall d :: d in ids <==> IsDelivered(w, provider, group, d)
    ensures Canonical(w, provider, group, ids)
  {
    hide IsDelivered, ComesFirst, ByName, InfoIn, NameOf;
    forall i, j | 0 <= i < j < |ids|
      ensures ComesFirst(w, ids[i], ids[j])
    {
      AscendingComesFirst(w, provider, group, ids, i, j);
    }
  }

  lemma {:induction false} ListingSays(w: World, provider: string, group: string)
    ensures var ids := Listing(Members(w, provider), InfoIn(w), group);
            && Ascending(ByName(NameOf(InfoIn(w))), ids)
            && forall d :: d in ids <==> IsDelivered(w, provider, group, d)
  {
    var name, listed := NameOf(InfoIn(w)), Listed(Members(w, provider), InfoIn(w), group);
    ByNameIsStrictTotal(name);
    SortedAscends(ByName(name), listed);
    hide IsDelivered, ByName, InfoIn, Listed, Members, NameOf;
    forall d ensures d in Named(name, listed) <==> IsDelivered(w, provider, group, d) {
      ListedMeansDelivered(w, provider, group, d);
    }
  }

  lemma {:induction false} AscendingComesFirst(w: World, provider: string, group: string, ids: seq<string>, i: nat,
          j: nat)
    requires Ascending(ByName(NameOf(InfoIn(w))), ids) && forall d :: d in ids ==> IsDelivered(w, provider, group, d)
    requires i < j < |ids|
    ensures ComesFirst(w, ids[i], ids[j])
  {
    hide IsDelivered, ComesFirst, ByName, InfoIn, NameOf;
    DeliveredIsKnown(w, provider, group, ids[i]);
    DeliveredIsKnown(w, provider, group, ids[j]);
    EarlierComesFirst(w, ids[i], ids[j]);
  }

  /** There is only one such sequence. */
  lemma {:induction false} CanonicalIsUnique(w: World, provider: string, group: string, a: seq<string>, b: seq<string>)
    requires Canonical(w, provider, group, a) && Canonical(w, provider, group, b)
    ensures a == b
  {
    hide IsDelivered, ComesFirst, ByName, NameOf, InfoIn;
    CanonicalAscends(w, provider, group, a);
    CanonicalAscends(w, provider, group, b);
    ByNameIsStrictTotal(NameOf(InfoIn(w)));
    ListingIsUnique(ByName(NameOf(InfoIn(w))), a, b);
  }

  lemma {:induction false} CanonicalAscends(w: World, provider: string, group: string, ids: seq<string>)
    requires Canonical(w, provider, group, ids)
    ensures Ascending(ByName(NameOf(InfoIn(w))), ids)
  {
    hide IsDelivered, ComesFirst, ByName, NameOf, InfoIn;
    forall i, j | 0 <= i < j < |ids| ensures ByName(NameOf(InfoIn(w)))(ids[i], ids[j]) {
      DeliveredIsKnown(w, provider, group, ids[i]);
      DeliveredIsKnown(w, provider, group, ids[j]);
      EarlierComesFirst(w, ids[i], ids[j]);
    }
  }

  lemma {:induction false} GroupIs(w: World, provider: string, i: nat)
    requires i < |Groups(w, provider)|
    ensures Groups(w, provider)[i].key in Keys(Members(w, provider), InfoIn(w))
    ensures Groups(w, provider)[i].entries == EntriesOf(Members(w, provider), InfoIn(w), Groups(w, provider)[i].key)
  {
    var members, info := Members(w, provider), InfoIn(w);
    GroupAt(KeyListing(members, info), members, info, i);
    StringsList(Keys(members, info));
  }

  lemma {:induction false} EntriesAre(w: World, provider: string, group: string)
    ensures var ids, entries :=
              Listing(Members(w, provider), InfoIn(w), group), EntriesOf(Members(w, provider), InfoIn(w), group);
            && |entries| == |ids|
            && forall j :: 0 <= j < |ids| ==> InfoIn(w)(ids[j]).Some? && entries[j] == EntryOf(InfoIn(w)(ids[j]).value)
  {
    var ids := Listing(Members(w, provider), InfoIn(w), group);
    EntriesAt(ids, InfoIn(w));
    hide EntriesFor, Listing, InfoIn, Members;
  }

  /** ...and one that is there appears once, its key below all later ones, and holds an entry for each of the
      devices delivered under it, of which there is one at least, and for no other, in canonical order. */
  lemma {:induction false} GroupsAreCanonical(w: World, provider: string, i: nat) returns (ids: seq<string>)
    requires i < |Groups(w, provider)|
    ensures forall j :: i < j < |Groups(w, provider)| ==> Before(Groups(w, provider)[i].key, Groups(w, provider)[j].key)
    ensures ids != [] && Canonical(w, provider, Groups(w, provider)[i].key, ids)
    ensures |Groups(w, provider)[i].entries| == |ids|
    ensures forall j :: 0 <= j < |ids| ==>
              ids[j] in w.devices && Describes(Groups(w, provider)[i].entries[j], ids[j], w)
  {
    GroupsAscend(w, provider);
    hide Groups, Canonical, Listing, EntriesOf, InfoIn, Members, Keys;
    var group := Groups(w, provider)[i].key;
    GroupIs(w, provider, i);
    EntriesAre(w, provider, group);
    ids := Listing(Members(w, provider), InfoIn(w), group);
    ListingIsCanonical(w, provider, group);
    ListsSomebody(w, provider, group, ids);
    forall j | 0 <= j < |ids| ensures ids[j] in w.devices && Describes(Groups(w, provider)[i].entries[j], ids[j], w) {
      IsCanonical(w, provider, group, ids, j);
      EntryDescribes(w, ids[j]);
    }
  }

  /** The entry says the device's name and its known addresses, and nothing else. */
  ghost predicate Describes(e: Entry, id: string, w: World)
    requires id in w.devices
  {
    GoesBy(id, w.devices[id], e.deviceName) && e.ips == Addresses(w.devices[id])
  }

  lemma {:induction false} EntryDescribes(w: World, id: string)
    requires id in w.devices && InfoIn(w)(id).Some?
    ensures Describes(EntryOf(InfoIn(w)(id).value), id, w)
  {
    InfoSays(id, w.devices[id]);
    hide InfoOf, GoesBy, Addresses;
  }

  lemma {:induction false} IsCanonical(w: World, provider: string, group: string, ids: seq<string>, j: nat)
    requires Canonical(w, provider, group, ids) && j < |ids|
    ensures ids[j] in w.devices && InfoIn(w)(ids[j]).Some?
  {
    DeliveredIsKnown(w, provider, group, ids[j]);
  }

  lemma {:induction false} ListsSomebody(w: World, provider: string, group: string, ids: seq<string>)
    requires group in Keys(Members(w, provider), InfoIn(w)) && Canonical(w, provider, group, ids)
    ensures ids != []
  {
    var m :| m in Members(w, provider) && InfoIn(w)(m.device).Some? && m.group == group;
    ListedMeansDelivered(w, provider, group, m.device);
    assert m.device in ids;
  }

  lemma {:induction false} GroupsAscend(w: World, provider: string)
    ensures var groups := Groups(w, provider);
            forall i, j :: 0 <= i < j < |groups| ==> Before(groups[i].key, groups[j].key)
  {
    StringsAscend(Keys(Members(w, provider), InfoIn(w)));
  }

  ghost function SetOf(members: seq<Membership>): set<Membership> {
    set m | m in members
  }

  /** The nested maps the builder fills, against what they stand for. */
  ghost predicate Collected(byGroup: map<string, map<string, Entry>>, members: set<Membership>,
          info: string -> Option<Info>) {
    && byGroup.Keys == Keys(members, info)
    && (forall g :: g in byGroup ==> byGroup[g].Keys == Listed(members, info, g))
    && (forall g, d :: g in byGroup && d in byGroup[g] ==> byGroup[g][d] == EntryOf(info(d).value))
  }

  lemma {:induction false} UnknownIsUnlisted(members: set<Membership>, info: string -> Option<Info>, m: Membership,
          group: string)
    requires info(m.device).None?
    ensures Listed(members + {m}, info, group) == Listed(members, info, group)
    ensures Keys(members + {m}, info) == Keys(members, info)
  {
  }

  lemma {:induction false} CollectSkips(byGroup: map<string, map<string, Entry>>, members: set<Membership>,
          info: string -> Option<Info>, m: Membership)
    requires Collected(byGroup, members, info) && info(m.device).None?
    ensures Collected(byGroup, members + {m}, info)
  {
    forall g ensures Listed(members + {m}, info, g) == Listed(members, info, g) {
      UnknownIsUnlisted(members, info, m, g);
    }
    hide Listed, Keys;
  }

  lemma {:induction false} ListedGrows(members: set<Membership>, info: string -> Option<Info>, m: Membership,
          group: string)
    requires info(m.device).Some?
    ensures Listed(members + {m}, info, group) ==
              Listed(members, info, group) + (if group == m.group then {m.device} else {})
  {
    assert forall d :: Membership(group, d) == m <==> group == m.group && d == m.device;
  }

  lemma {:induction false} KeysGrow(members: set<Membership>, info: string -> Option<Info>, m: Membership)
    requires info(m.device).Some?
    ensures Keys(members + {m}, info) == Keys(members, info) + {m.group}
  {
    assert m == Membership(m.group, m.device);
    forall g ensures g in Keys(members + {m}, info) <==> g in Keys(members, info) + {m.group} {
      if g in Keys(members + {m}, info) {
        var d :| Membership(g, d) in members + {m} && info(d).Some?;
      }
      if g in Keys(members, info) {
        var d :| Membership(g, d) in members && info(d).Some?;
        assert Membership(g, d) in members + {m};
      }
    }
  }

  lemma {:induction false} UnlistedGroup(members: set<Membership>, info: string -> Option<Info>, group: string)
    requires group !in Keys(members, info)
    ensures Listed(members, info, group) == {}
  {
    forall d ensures d !in Listed(members, info, group) {
      if d in Listed(members, info, group) {
        KeyOfListed(members, info, group, d);
      }
    }
  }

  function Added(byGroup: map<string, map<string, Entry>>, m: Membership,
          entry: Entry): map<string, map<string, Entry>> {
    byGroup[m.group := (if m.group in byGroup then byGroup[m.group] else map[])[m.device := entry]]
  }

  lemma {:induction false} EntriesKept(byGroup: map<string, map<string, Entry>>, members: set<Membership>,
          info: string -> Option<Info>, m: Membership)
    requires Collected(byGroup, members, info) && info(m.device).Some?
    ensures var after := Added(byGroup, m, EntryOf(info(m.device).value));
            forall g, d :: g in after && d in after[g] ==> info(d).Some? && after[g][d] == EntryOf(info(d).value)
  {
    hide EntryOf, Keys;
    forall g, d | g in byGroup && d in byGroup[g] ensures info(d).Some? {
      assert d in Listed(members, info, g);
    }
  }

  lemma {:induction false} GroupsKept(byGroup: map<string, map<string, Entry>>, m: Membership, entry: Entry, g: string)
    ensures var after := Added(byGroup, m, entry);
            && after.Keys == byGroup.Keys + {m.group}
            && (g in after ==>
                  after[g].Keys ==
                    (if g in byGroup then byGroup[g].Keys else {}) + (if g == m.group then {m.device} else {}))
  {
  }

  lemma {:induction false} CollectAdds(byGroup: map<string, map<string, Entry>>, members: set<Membership>,
          info: string -> Option<Info>, m: Membership)
    requires Collected(byGroup, members, info) && info(m.device).Some?
    ensures Collected(Added(byGroup, m, EntryOf(info(m.device).value)), members + {m}, info)
  {
    var entry := EntryOf(info(m.device).value);
    EntriesKept(byGroup, members, info, m);
    GroupsKept(byGroup, m, entry, m.group);
    hide Listed, Keys, Added, EntryOf;
    KeysGrow(members, info, m);
    if m.group !in byGroup {
      UnlistedGroup(members, info, m.group);
    }
    forall g | g in Added(byGroup, m, entry)
      ensures Added(byGroup, m, entry)[g].Keys == Listed(members + {m}, info, g) {
      GroupsKept(byGroup, m, entry, g);
      ListedGrows(members, info, m, g);
    }
  }

  /** Builds the content from the streams, listing the actions in any order the store returns them. */
  method BuildSnapshotContent(w: World, actionIds: seq<string>, providerId: string, providerName: string)
    returns (content: Content)
    requires forall a :: a in actionIds <==> a in w.actions
    ensures content == Content(providerName, Groups(w, providerId))
  {
    var members := CollectMembers(w, actionIds, providerId);

    ghost var info := InfoIn(w);
    var deviceCache: map<string, Option<Info>> := map[];
    var byGroup: map<string, map<string, Entry>> := map[];
    for i := 0 to |members|
      invariant forall d :: d in deviceCache ==> deviceCache[d] == info(d)
      invariant Collected(byGroup, SetOf(members[..i]), info)
    {
      var member := members[i];
      assert SetOf(members[..i + 1]) == SetOf(members[..i]) + {member};
      if member.device !in deviceCache {
        deviceCache := deviceCache[member.device := InfoOf(member.device, Device(w, member.device))];
      }
      var device := deviceCache[member.device];
      if device.None? {
        CollectSkips(byGroup, SetOf(members[..i]), info, member);
        continue;
      }
      CollectAdds(byGroup, SetOf(members[..i]), info, member);
      var entries := if member.group in byGroup then byGroup[member.group] else map[];
      entries := entries[member.device := EntryOf(device.value)];
      byGroup := byGroup[member.group := entries];
    }
    assert members[..|members|] == members;
    var groups := SortGroups(byGroup, Members(w, providerId), info);
    content := Content(providerName, groups);
  }

  /** The members in the order the actions are listed; a device can be a member twice. */
  method CollectMembers(w: World, actionIds: seq<string>, providerId: string) returns (members: seq<Membership>)
    requires forall a :: a in actionIds <==> a in w.actions
    ensures SetOf(members) == Members(w, providerId)
  {
    members := [];
    for i := 0 to |actionIds|
      invariant forall m :: m in members ==> m in Members(w, providerId)
      invariant forall j :: 0 <= j < i && Member(w.actions[actionIds[j]], providerId).Some? ==>
                  Member(w.actions[actionIds[j]], providerId).value in members
    {
      assert actionIds[i] in w.actions;
      var member := Member(w.actions[actionIds[i]], providerId);
      if member.None? {
        continue;
      }
      members := members + [member.value];
    }
    forall m | m in Members(w, providerId) ensures m in members {
      var a :| a in w.actions && Member(w.actions[a], providerId) == Some(m);
      assert a in actionIds;
    }
  }

  lemma {:induction false} EntriesForGrows(ids: seq<string>, info: string -> Option<Info>, i: nat)
    requires forall j :: 0 <= j < |ids| ==> info(ids[j]).Some?
    requires i < |ids|
    ensures EntriesFor(ids[..i + 1], info) == EntriesFor(ids[..i], info) + [EntryOf(info(ids[i]).value)]
  {
    assert ids[..i + 1][..i] == ids[..i];
  }

  lemma {:induction false} GroupsForGrows(keys: seq<string>, members: set<Membership>, info: string -> Option<Info>,
          i: nat)
    requires i < |keys|
    ensures GroupsFor(keys[..i + 1], members, info) ==
            GroupsFor(keys[..i], members, info) + [Group(keys[i], EntriesOf(members, info, keys[i]))]
  {
    assert keys[..i + 1][..i] == keys[..i];
  }

  lemma {:induction false} NoKeysNoGroups(members: set<Membership>, info: string -> Option<Info>)
    ensures GroupsFor([], members, info) == []
  {
  }

  lemma {:induction false} CollectedKeys(byGroup: map<string, map<string, Entry>>, members: set<Membership>,
          info: string -> Option<Info>)
    requires Collected(byGroup, members, info)
    ensures byGroup.Keys == Keys(members, info)
  {
  }

  lemma {:induction false} CollectedGroup(byGroup: map<string, map<string, Entry>>, members: set<Membership>,
          info: string -> Option<Info>, group: string)
    requires Collected(byGroup, members, info) && group in byGroup
    ensures byGroup[group].Keys == Listed(members, info, group)
    ensures forall d :: d in byGroup[group] ==> byGroup[group][d] == EntryOf(info(d).value)
  {
  }

  /** The groups by key, each with its entries by device name and then by id. */
  method SortGroups(byGroup: map<string, map<string, Entry>>, ghost members: set<Membership>,
          ghost info: string -> Option<Info>)
    returns (groups: seq<Group>)
    requires Collected(byGroup, members, info)
    ensures groups == GroupsOf(members, info)
  {
    hide GroupsFor, Collected, EntriesOf, Listed;
    var keys := SortStrings(byGroup.Keys);
    CollectedKeys(byGroup, members, info);
    StringsList(byGroup.Keys);
    groups := [];
    assert keys[..0] == [];
    NoKeysNoGroups(members, info);
    for i := 0 to |keys|
      invariant groups == GroupsFor(keys[..i], members, info)
    {
      var key := keys[i];
      GroupsForGrows(keys, members, info, i);
      CollectedGroup(byGroup, members, info, key);
      var entries := SortEntries(byGroup[key], members, info, key);
      groups := groups + [Group(key, entries)];
    }
    assert keys[..|keys|] == keys;
  }

  /** One group's entries: the map's own names and values decide the order and the result. */
  method SortEntries(entries: map<string, Entry>, ghost members: set<Membership>, ghost info: string -> Option<Info>,
          ghost group: string)
    returns (sorted: seq<Entry>)
    requires entries.Keys == Listed(members, info, group)
    requires forall d :: d in entries ==> entries[d] == EntryOf(info(d).value)
    ensures sorted == EntriesOf(members, info, group)
  {
    var name := NameAmong(entries);
    var ids := SortNamed(name, entries.Keys);
    NamesAgree(entries, info, group, members);
    sorted := [];
    for i := 0 to |ids|
      invariant sorted == EntriesFor(ids[..i], info)
    {
      EntriesForGrows(ids, info, i);
      sorted := sorted + [entries[ids[i]]];
    }
    assert ids[..|ids|] == ids;
  }

  function NameAmong(entries: map<string, Entry>): string -> string {
    d => if d in entries then entries[d].deviceName else ""
  }

  lemma {:induction false} NamesAgree(entries: map<string, Entry>, info: string -> Option<Info>, group: string,
          members: set<Membership>)
    requires entries.Keys == Listed(members, info, group)
    requires forall d :: d in entries ==> entries[d] == EntryOf(info(d).value)
    ensures var ids := Named(NameAmong(entries), entries.Keys);
            && ids == Listing(members, info, group)
            && forall i :: 0 <= i < |ids| ==> ids[i] in entries && info(ids[i]).Some?
  {
    NamedAgree(NameAmong(entries), NameOf(info), entries.Keys);
    NamedList(NameAmong(entries), entries.Keys);
  }

  /** The provider a delivery action points at, whatever its status: what a change to the action schedules. */
  function DeliveryTarget(a: Action.State): (s: set<string>) {
    if a.kind == Some(Action.TraefikDelivery) && a.config.Some? && a.config.value.Delivery?
    then {a.config.value.traefikProviderId} else {}
  }

  /** The provider a delivery action makes depend on this device: any action but a detached one counts. */
  function DeviceTarget(a: Action.State, device: string): (s: set<string>)
    ensures s <= DeliveryTarget(a)
  {
    if a.status != Action.Detached && Present(a.ipClientId) && a.ipClientId == Some(device) then DeliveryTarget(a)
    else {}
  }

  ghost function ProvidersOfDevice(w: World, device: string): (s: set<string>)
    ensures forall p :: p in s <==> exists a :: a in w.actions && p in DeviceTarget(w.actions[a], device)
  {
    set a, p | a in w.actions && p in DeviceTarget(w.actions[a], device) :: p
  }

  datatype DeliveryAction = DeliveryAction(
    actionId: string,
    ipClientId: string,
    traefikProviderId: string,
    group: string,
    status: Action.Status)

  /** The row is the action's: a delivery action that is not detached and names a device. */
  predicate IsRowOf(x: DeliveryAction, a: Action.State) {
    && a.kind == Some(Action.TraefikDelivery) && a.status != Action.Detached && x.status == a.status
    && a.ipClientId == Some(x.ipClientId) && x.ipClientId != ""
    && a.config == Some(Action.Delivery(x.traefikProviderId, x.group))
  }

  lemma {:induction false} RowSays(x: DeliveryAction, a: Action.State)
    ensures DeliveryRow(x.actionId, a) == Some(x) <==> IsRowOf(x, a)
  {
  }

  /** The providers of a device are those its actions deliver it to, enabled or not, unless they are detached. */
  lemma {:induction false} ProvidersSay(w: World, device: string, provider: string)
    ensures provider in ProvidersOfDevice(w, device) <==>
              exists a, g ::
                && a in w.actions && w.actions[a].kind == Some(Action.TraefikDelivery)
                && w.actions[a].status != Action.Detached && w.actions[a].ipClientId == Some(device) && device != ""
                && w.actions[a].config == Some(Action.Delivery(provider, g))
  {
    if provider in ProvidersOfDevice(w, device) {
      var a :| a in w.actions && provider in DeviceTarget(w.actions[a], device);
      assert w.actions[a].config == Some(Action.Delivery(provider, w.actions[a].config.value.group));
    }
    if a, g :| && a in w.actions && w.actions[a].kind == Some(Action.TraefikDelivery)
               && w.actions[a].status != Action.Detached && w.actions[a].ipClientId == Some(device) && device != ""
               && w.actions[a].config == Some(Action.Delivery(provider, g)) {
      assert provider in DeviceTarget(w.actions[a], device);
    }
  }

  /** A delivery action, whatever its status, points at the provider in its configuration and at no other. */
  lemma {:induction false} TargetSays(a: Action.State, provider: string)
    ensures provider in DeliveryTarget(a) <==>
              a.kind == Some(Action.TraefikDelivery) && exists g :: a.config == Some(Action.Delivery(provider, g))
  {
    if provider in DeliveryTarget(a) {
      assert a.config == Some(Action.Delivery(provider, a.config.value.group));
    }
  }

  /** The row of an action in the listing, if it gets one. */
  function DeliveryRow(id: string, a: Action.State): Option<DeliveryAction> {
    if a.kind != Some(Action.TraefikDelivery) || a.status == Action.Detached || !Present(a.ipClientId) then None
    else if a.config.None? || !a.config.value.Delivery? then None
    else Some(DeliveryAction(id, a.ipClientId.value, a.config.value.traefikProviderId, a.config.value.group, a.status))
  }

  lemma {:induction false} RowTargets(id: string, a: Action.State, provider: string, device: string)
    ensures provider in DeviceTarget(a, device) <==>
            DeliveryRow(id, a).Some? && DeliveryRow(id, a).value.ipClientId == device
            && DeliveryRow(id, a).value.traefikProviderId == provider
  {
  }

  /** Every delivery action that is not detached gets a row of its own, in the order of the ids; and so the
      listing determines the providers of every device. */
  method ListDeliveryActions(w: World, actionIds: seq<string>) returns (result: seq<DeliveryAction>)
    requires forall a :: a in actionIds <==> a in w.actions
    ensures forall x :: x in result <==> x.actionId in w.actions && IsRowOf(x, w.actions[x.actionId])
    ensures multiset(RowIds(result)) <= multiset(actionIds)
    ensures forall p, d :: (exists x :: x in result && x.ipClientId == d && x.traefikProviderId == p) <==>
              p in ProvidersOfDevice(w, d)
  {
    assert RowIds([]) == [];
    hide ProvidersOfDevice, RowIds;
    result := [];
    for i := 0 to |actionIds|
      invariant forall x :: x in result ==>
                  x.actionId in w.actions && DeliveryRow(x.actionId, w.actions[x.actionId]) == Some(x)
      invariant forall j :: 0 <= j < i && DeliveryRow(actionIds[j], w.actions[actionIds[j]]).Some? ==>
                  DeliveryRow(actionIds[j], w.actions[actionIds[j]]).value in result
      invariant multiset(RowIds(result)) <= multiset(actionIds[..i])
    {
      assert actionIds[i] in actionIds;
      assert actionIds[..i + 1] == actionIds[..i] + [actionIds[i]];
      var state := w.actions[actionIds[i]];
      if state.kind != Some(Action.TraefikDelivery) || state.status == Action.Detached || !Present(state.ipClientId) {
        continue;
      }
      if state.config.None? || !state.config.value.Delivery? {
        continue;
      }
      var config := state.config.value;
      var added :=
        DeliveryAction(actionIds[i], state.ipClientId.value, config.traefikProviderId, config.group, state.status);
      RowIdsGrow(result, added);
      result := result + [added];
    }
    hide DeliveryRow;
    assert actionIds[..|actionIds|] == actionIds;
    forall x: DeliveryAction | x.actionId in w.actions && DeliveryRow(x.actionId, w.actions[x.actionId]) == Some(x)
      ensures x in result {
      assert x.actionId in actionIds;
    }
    ListedProviders(w, result);
    hide IsRowOf;
    forall x: DeliveryAction | x.actionId in w.actions
      ensures DeliveryRow(x.actionId, w.actions[x.actionId]) == Some(x) <==> IsRowOf(x, w.actions[x.actionId])
    {
      RowSays(x, w.actions[x.actionId]);
    }
  }

  ghost function RowIds(rows: seq<DeliveryAction>): seq<string> {
    seq(|rows|, i requires 0 <= i < |rows| => rows[i].actionId)
  }

  lemma {:induction false} RowIdsGrow(rows: seq<DeliveryAction>, row: DeliveryAction)
    ensures RowIds(rows + [row]) == RowIds(rows) + [row.actionId]
  {
  }

  lemma {:induction false} ListedProviders(w: World, rows: seq<DeliveryAction>)
    requires forall x :: x in rows <==>
               x.actionId in w.actions && DeliveryRow(x.actionId, w.actions[x.actionId]) == Some(x)
    ensures forall p, d :: (exists x :: x in rows && x.ipClientId == d && x.traefikProviderId == p) <==>
              p in ProvidersOfDevice(w, d)
  {
    forall p, d ensures (exists x :: x in rows && x.ipClientId == d && x.traefikProviderId == p) <==>
             p in ProvidersOfDevice(w, d) {
      if p in ProvidersOfDevice(w, d) {
        var a :| a in w.actions && p in DeviceTarget(w.actions[a], d);
        RowTargets(a, w.actions[a], p, d);
        assert DeliveryRow(a, w.actions[a]).value in rows;
      }
      if x :| x in rows && x.ipClientId == d && x.traefikProviderId == p {
        RowTargets(x.actionId, w.actions[x.actionId], p, d);
      }
    }
  }

  lemma {:induction false} NotAMember(p: string, w: World, d: string, m: Membership)
    requires m in Members(w, p) && p !in ProvidersOfDevice(w, d)
    ensures m.device != d
  {
    var a :| a in w.actions && Member(w.actions[a], p) == Some(m);
    assert p in DeviceTarget(w.actions[a], m.device);
  }

  lemma {:induction false} MembersReadNoDevices(w: World, devices: map<string, IpClient.State>, provider: string)
    ensures Members(w.(devices := devices), provider) == Members(w, provider)
  {
  }

  /** A device event changes only the content of providers that depend on the device. */
  lemma {:induction false} DeviceEventIsLocal(w: World, device: string, d: IpClient.State, provider: string)
    requires provider !in ProvidersOfDevice(w, device)
    ensures Groups(w.(devices := w.devices[device := d]), provider) == Groups(w, provider)
  {
    hide Members, GroupsOf, InfoOf, ProvidersOfDevice;
    var w' := w.(devices := w.devices[device := d]);
    MembersReadNoDevices(w, w'.devices, provider);
    forall m | m in Members(w, provider) ensures InfoIn(w')(m.device) == InfoIn(w)(m.device) {
      NotAMember(provider, w, device, m);
    }
    GroupsAgree(Members(w, provider), InfoIn(w), InfoIn(w'));
  }

  lemma {:induction false} MembersUnchanged(w: World, action: string, a: Action.State, provider: string)
    requires Member(a, provider) == if action in w.actions then Member(w.actions[action], provider) else None
    ensures Members(w.(actions := w.actions[action := a]), provider) == Members(w, provider)
  {
    var w' := w.(actions := w.actions[action := a]);
    forall m | m in Members(w, provider) ensures m in Members(w', provider) {
      var x :| x in w.actions && Member(w.actions[x], provider) == Some(m);
      assert x in w'.actions && Member(w'.actions[x], provider) == Some(m);
    }
    forall m | m in Members(w', provider) ensures m in Members(w, provider) {
      var x :| x in w'.actions && Member(w'.actions[x], provider) == Some(m);
      assert x in w.actions && Member(w.actions[x], provider) == Some(m);
    }
  }

  /** An action event changes only the content of the providers it points at before and after. */
  lemma {:induction false} ActionEventIsLocal(w: World, action: string, a: Action.State, provider: string)
    requires provider !in DeliveryTarget(a)
    requires action in w.actions ==> provider !in DeliveryTarget(w.actions[action])
    ensures Groups(w.(actions := w.actions[action := a]), provider) == Groups(w, provider)
  {
    var w' := w.(actions := w.actions[action := a]);
    MembersUnchanged(w, action, a, provider);
    GroupsAgree(Members(w, provider), InfoIn(w), InfoIn(w'));
  }
}

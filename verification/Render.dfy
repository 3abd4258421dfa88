/** What the agent's templates see of a snapshot. */
module Render {
  import opened Options
  import opened Ordering
  import Snapshot

  datatype Entry = Entry(name: string, ips: seq<string>, ipv4: seq<string>, ipv6: seq<string>)

  /** Everything a template can see; the time is left out. */
  datatype Data = Data(provider: string, version: nat, stale: bool, groups: map<string, seq<Entry>>)

  /** Address parsing: nothing for text that is no address, else whether it is an IPv4 or IPv4-in-IPv6 one. */
  const PARSES_AS_IPV4: string -> Option<bool>

  function OfFamily(ips: seq<string>, v4: bool): seq<string> {
    if ips == [] then []
    else OfFamily(ips[..|ips| - 1], v4) + (if PARSES_AS_IPV4(ips[|ips| - 1]) == Some(v4) then [ips[|ips| - 1]] else [])
  }

  function EntryFrom(name: string, ips: seq<string>): Entry {
    Entry(name, ips, OfFamily(ips, true), OfFamily(ips, false))
  }

  function Parses(v4: bool): string -> bool {
    (ip: string) => PARSES_AS_IPV4(ip) == Some(v4)
  }

  /** The addresses of one family, in their order. */
  lemma {:induction false} OfFamilyPicks(ips: seq<string>, v4: bool)
    ensures Picks(OfFamily(ips, v4), ips, Parses(v4))
  {
    hide Picks;
    if ips == [] {
      PicksNone(Parses(v4));
    } else {
      var rest, last := ips[..|ips| - 1], ips[|ips| - 1];
      OfFamilyPicks(rest, v4);
      PicksMore(OfFamily(rest, v4), rest, Parses(v4), last);
      assert ips == rest + [last];
    }
  }

  /** The entry of a template for an entry of the snapshot: the same name and addresses, and these by family. */
  ghost predicate Shows(t: Entry, e: Snapshot.Entry) {
    && t.name == e.deviceName && t.ips == e.ips
    && Picks(t.ipv4, e.ips, Parses(true)) && Picks(t.ipv6, e.ips, Parses(false))
  }

  lemma {:induction false} EntryShows(e: Snapshot.Entry)
    ensures Shows(EntryFrom(e.deviceName, e.ips), e)
  {
    hide Picks;
    OfFamilyPicks(e.ips, true);
    OfFamilyPicks(e.ips, false);
  }

  method NewEntry(name: string, ips: seq<string>) returns (e: Entry)
    ensures e == EntryFrom(name, ips)
    ensures Shows(e, Snapshot.Entry(name, ips))
  {
    EntryShows(Snapshot.Entry(name, ips));
    hide Shows;
    e := Entry(name, ips, [], []);
    for i := 0 to |ips|
      invariant e == Entry(name, ips, OfFamily(ips[..i], true), OfFamily(ips[..i], false))
    {
      var ip := ips[i];
      assert ips[..i + 1][..i] == ips[..i];
      var parsed := PARSES_AS_IPV4(ip);
      if parsed.None? {
        continue;
      }
      if parsed.value {
        e := e.(ipv4 := e.ipv4 + [ip]);
      } else {
        e := e.(ipv6 := e.ipv6 + [ip]);
      }
    }
    assert ips[..|ips|] == ips;
  }

  /** Reading a missing key yields an empty list. */
  function Under(groups: map<string, seq<Entry>>, key: string): seq<Entry> {
    if key in groups then groups[key] else []
  }

  function WithEntries(groups: map<string, seq<Entry>>, key: string,
          entries: seq<Snapshot.Entry>): map<string, seq<Entry>> {
    if entries == [] then groups else
      var before := WithEntries(groups, key, entries[..|entries| - 1]);
      var e := entries[|entries| - 1];
      before[key := Under(before, key) + [EntryFrom(e.deviceName, e.ips)]]
  }

  function GroupsFrom(groups: seq<Snapshot.Group>): map<string, seq<Entry>> {
    if groups == [] then map[] else
      var last := groups[|groups| - 1];
      WithEntries(GroupsFrom(groups[..|groups| - 1]), last.key, last.entries)
  }

  function EmptyData(stale: bool): Data {
    Data("", 0, stale, map[])
  }

  function DataOf(content: Snapshot.Content, version: nat, stale: bool): Data {
    Data(content.providerName, version, stale, GroupsFrom(content.groups))
  }

  /** All entries under the key, group by group. */
  function EntriesOfKey(groups: seq<Snapshot.Group>, key: string): seq<Snapshot.Entry> {
    if groups == [] then [] else
      (if groups[0].key == key then groups[0].entries else []) + EntriesOfKey(groups[1..], key)
  }

  /** What a template sees of a snapshot: the provider's name, the version, the mark, the keys that have entries,
      and under each key its entries in their order, each with its addresses by family. */
  ghost predicate Reflects(data: Data, content: Snapshot.Content, version: nat, stale: bool) {
    && data.provider == content.providerName && data.version == version && data.stale == stale
    && (forall k :: k in data.groups <==> EntriesOfKey(content.groups, k) != [])
    && (forall k :: k in data.groups ==>
          var entries := EntriesOfKey(content.groups, k);
          && |data.groups[k]| == |entries|
          && forall i :: 0 <= i < |entries| ==> Shows(data.groups[k][i], entries[i]))
  }

  /** The entries under a key are those of the snapshot. */
  ghost predicate ShowAll(ts: seq<Entry>, es: seq<Snapshot.Entry>) {
    |ts| == |es| && forall i :: 0 <= i < |es| ==> Shows(ts[i], es[i])
  }

  lemma {:induction false} ShowsAppend(ts: seq<Entry>, es: seq<Snapshot.Entry>, e: Snapshot.Entry)
    requires ShowAll(ts, es)
    ensures ShowAll(ts + [EntryFrom(e.deviceName, e.ips)], es + [e])
  {
    EntryShows(e);
    hide Shows, EntryFrom;
  }

  lemma {:induction false} WithEntriesShow(groups: map<string, seq<Entry>>, key: string, entries: seq<Snapshot.Entry>,
          before: seq<Snapshot.Entry>)
    requires ShowAll(Under(groups, key), before)
    ensures ShowAll(Under(WithEntries(groups, key, entries), key), before + entries)
  {
    hide ShowAll, EntryFrom;
    if entries == [] {
      assert before + [] == before;
    } else {
      var rest, e := entries[..|entries| - 1], entries[|entries| - 1];
      WithEntriesShow(groups, key, rest, before);
      ShowsAppend(Under(WithEntries(groups, key, rest), key), before + rest, e);
      assert before + entries == (before + rest) + [e];
    }
  }

  lemma {:induction false} EntriesOfKeyAppend(groups: seq<Snapshot.Group>, g: Snapshot.Group, key: string)
    ensures EntriesOfKey(groups + [g], key) == EntriesOfKey(groups, key) + (if g.key == key then g.entries else [])
  {
    if groups != [] {
      assert (groups + [g])[1..] == groups[1..] + [g];
      EntriesOfKeyAppend(groups[1..], g, key);
    }
  }

  lemma {:induction false} GroupsShow(groups: seq<Snapshot.Group>, key: string)
    ensures ShowAll(Under(GroupsFrom(groups), key), EntriesOfKey(groups, key))
    ensures key in GroupsFrom(groups) <==> EntriesOfKey(groups, key) != []
  {
    if groups != [] {
      var n := |groups| - 1;
      var g, before := groups[n], GroupsFrom(groups[..n]);
      GroupsShow(groups[..n], key);
      EntriesOfKeyAppend(groups[..n], g, key);
      assert groups == groups[..n] + [g];
      hide ShowAll, EntriesOfKey;
      KeysStay(before, g.key, g.entries);
      if g.key == key {
        WithEntriesShow(before, key, g.entries, EntriesOfKey(groups[..n], key));
      } else {
        OtherKeysStay(before, g.key, g.entries, key);
        assert EntriesOfKey(groups[..n], key) + [] == EntriesOfKey(groups[..n], key);
      }
    }
  }

  lemma {:induction false} KeysStay(groups: map<string, seq<Entry>>, key: string, entries: seq<Snapshot.Entry>)
    ensures WithEntries(groups, key, entries).Keys == groups.Keys + (if entries == [] then {} else {key})
  {
    if entries != [] {
      KeysStay(groups, key, entries[..|entries| - 1]);
    }
  }

  lemma {:induction false} DataReflects(content: Snapshot.Content, version: nat, stale: bool)
    ensures Reflects(DataOf(content, version, stale), content, version, stale)
  {
    hide Shows, GroupsFrom, EntriesOfKey;
    forall k ensures ShowAll(Under(GroupsFrom(content.groups), k), EntriesOfKey(content.groups, k))
                     && (k in GroupsFrom(content.groups) <==> EntriesOfKey(content.groups, k) != []) {
      GroupsShow(content.groups, k);
    }
  }

  /** Without a snapshot there is no provider, no version and no group. */
  lemma {:induction false} EmptyReflects(stale: bool)
    ensures Reflects(EmptyData(stale), Snapshot.Content("", []), 0, stale)
  {
  }

  /** The loops of `dataFrom`: entries are appended under their group's key as they come. */
  method DataFrom(content: Snapshot.Content, version: nat, stale: bool) returns (data: Data)
    ensures data == DataOf(content, version, stale)
    ensures Reflects(data, content, version, stale)
  {
    DataReflects(content, version, stale);
    hide Reflects;
    var groups: map<string, seq<Entry>> := map[];
    for i := 0 to |content.groups|
      invariant groups == GroupsFrom(content.groups[..i])
    {
      var g := content.groups[i];
      ghost var before := groups;
      assert content.groups[..i + 1][..i] == content.groups[..i];
      for j := 0 to |g.entries|
        invariant groups == WithEntries(before, g.key, g.entries[..j])
      {
        assert g.entries[..j + 1][..j] == g.entries[..j];
        var e := NewEntry(g.entries[j].deviceName, g.entries[j].ips);
        groups := groups[g.key := Under(groups, g.key) + [e]];
      }
      assert g.entries[..|g.entries|] == g.entries;
    }
    assert content.groups[..|content.groups|] == content.groups;
    data := Data(content.providerName, version, stale, groups);
  }

  function AllIps(entries: seq<Entry>): seq<string> {
    if entries == [] then [] else AllIps(entries[..|entries| - 1]) + entries[|entries| - 1].ips
  }

  /** The template function `group`: one flat list of all addresses under a key. */
  method GroupIps(groups: map<string, seq<Entry>>, key: string) returns (out: seq<string>)
    ensures out == AllIps(Under(groups, key))
  {
    out := [];
    var entries := Under(groups, key);
    for i := 0 to |entries|
      invariant out == AllIps(entries[..i])
    {
      assert entries[..i + 1][..i] == entries[..i];
      out := out + entries[i].ips;
    }
    assert entries[..|entries|] == entries;
  }

  function DeliveredIps(entries: seq<Snapshot.Entry>): seq<string> {
    if entries == [] then [] else DeliveredIps(entries[..|entries| - 1]) + entries[|entries| - 1].ips
  }

  lemma {:induction false} AllIpsAppend(entries: seq<Entry>, e: Entry)
    ensures AllIps(entries + [e]) == AllIps(entries) + e.ips
  {
    assert (entries + [e])[..|entries|] == entries;
  }

  lemma {:induction false} OtherKeysStay(groups: map<string, seq<Entry>>, key: string, entries: seq<Snapshot.Entry>,
          other: string)
    requires other != key
    ensures Under(WithEntries(groups, key, entries), other) == Under(groups, other)
  {
    if entries != [] {
      OtherKeysStay(groups, key, entries[..|entries| - 1], other);
    }
  }

  lemma {:induction false} KeyGrows(groups: map<string, seq<Entry>>, key: string, entries: seq<Snapshot.Entry>)
    ensures AllIps(Under(WithEntries(groups, key, entries), key)) == AllIps(Under(groups, key)) + DeliveredIps(entries)
  {
    if entries != [] {
      var rest, e := entries[..|entries| - 1], entries[|entries| - 1];
      var before := WithEntries(groups, key, rest);
      KeyGrows(groups, key, rest);
      AllIpsAppend(Under(before, key), EntryFrom(e.deviceName, e.ips));
      ConcatAssociates(AllIps(Under(groups, key)), DeliveredIps(rest), e.ips);
    }
  }

  lemma {:induction false} IpsUnder(groups: map<string, seq<Entry>>, key: string, entries: seq<Snapshot.Entry>,
          other: string)
    ensures AllIps(Under(WithEntries(groups, key, entries), other)) ==
            AllIps(Under(groups, other)) + (if other == key then DeliveredIps(entries) else [])
  {
    if other == key {
      KeyGrows(groups, key, entries);
    } else {
      OtherKeysStay(groups, key, entries, other);
    }
  }

  /** Where a key names at most one group, it flattens to exactly that group's addresses, and otherwise to nothing. */
  lemma {:induction false} FlattenFindsGroup(groups: seq<Snapshot.Group>, key: string)
    requires forall i, j :: 0 <= i < j < |groups| ==> groups[i].key != groups[j].key
    ensures forall i :: 0 <= i < |groups| && groups[i].key == key ==>
              AllIps(Under(GroupsFrom(groups), key)) == DeliveredIps(groups[i].entries)
    ensures (forall i :: 0 <= i < |groups| ==> groups[i].key != key) ==> AllIps(Under(GroupsFrom(groups), key)) == []
  {
    if groups != [] {
      var n := |groups| - 1;
      FlattenFindsGroup(groups[..n], key);
      hide AllIps, Under, DeliveredIps, WithEntries;
      IpsUnder(GroupsFrom(groups[..n]), groups[n].key, groups[n].entries, key);
      assert forall i :: 0 <= i < n ==> groups[..n][i] == groups[i];
    } else {
      assert AllIps(Under(map[], key)) == [];
    }
  }

  /** The known addresses of the given devices, device by device. */
  function DeviceIps(ids: seq<string>, w: Snapshot.World): seq<string>
    requires forall d :: d in ids ==> d in w.devices
  {
    if ids == [] then [] else
      DeviceIps(ids[..|ids| - 1], w) + Snapshot.Addresses(w.devices[ids[|ids| - 1]])
  }

  lemma {:induction false} EntriesCarryDeviceIps(entries: seq<Snapshot.Entry>, ids: seq<string>, w: Snapshot.World)
    requires |entries| == |ids| && forall d :: d in ids ==> d in w.devices
    requires forall j :: 0 <= j < |ids| ==> entries[j].ips == Snapshot.Addresses(w.devices[ids[j]])
    ensures DeliveredIps(entries) == DeviceIps(ids, w)
  {
    if ids != [] {
      hide Snapshot.Addresses;
      EntriesCarryDeviceIps(entries[..|ids| - 1], ids[..|ids| - 1], w);
    }
  }

  lemma {:induction false} MissingKeyIsUndelivered(w: Snapshot.World, provider: string, key: string, ids: seq<string>)
    requires Snapshot.Canonical(w, provider, key, ids)
    requires forall i :: 0 <= i < |Snapshot.Groups(w, provider)| ==> Snapshot.Groups(w, provider)[i].key != key
    ensures ids == []
  {
    if ids != [] {
      assert ids[0] in ids;
      var _ := Snapshot.GroupAppears(w, provider, key, ids[0]);
    }
  }

  lemma {:induction false} KeysDiffer(w: Snapshot.World, provider: string)
    ensures var groups := Snapshot.Groups(w, provider);
            forall i, j :: 0 <= i < j < |groups| ==> groups[i].key != groups[j].key
  {
    var groups := Snapshot.Groups(w, provider);
    forall i, j | 0 <= i < j < |groups| ensures groups[i].key != groups[j].key {
      var _ := Snapshot.GroupsAreCanonical(w, provider, i);
      BeforeIrreflexive(groups[i].key);
    }
  }

  /** Account state to template: every key flattens to exactly the addresses of the devices delivered
      under it, in canonical order. */
  lemma {:induction false} SnapshotReachesTemplates(w: Snapshot.World, provider: string, key: string)
    returns (ids: seq<string>)
    ensures Snapshot.Canonical(w, provider, key, ids) && forall d :: d in ids ==> d in w.devices
    ensures AllIps(Under(GroupsFrom(Snapshot.Groups(w, provider)), key)) == DeviceIps(ids, w)
  {
    var groups := Snapshot.Groups(w, provider);
    KeysDiffer(w, provider);
    FlattenFindsGroup(groups, key);
    hide Snapshot.Groups, Snapshot.Canonical, GroupsFrom, Snapshot.IsDelivered, Snapshot.GoesBy;
    if i :| 0 <= i < |groups| && groups[i].key == key {
      ids := Snapshot.GroupsAreCanonical(w, provider, i);
      EntriesCarryDeviceIps(groups[i].entries, ids, w);
    } else {
      ids := Snapshot.Listing(Snapshot.Members(w, provider), Snapshot.InfoIn(w), key);
      Snapshot.ListingIsCanonical(w, provider, key);
      MissingKeyIsUndelivered(w, provider, key, ids);
    }
  }
}

/** Actions: the reducer of an `action` stream with its owned-entry ledger, and the rules of its writers. */
module Action {
  import opened Options
  import Streams = EventStreams
  import opened Histories

  datatype Status = Enabled | Disabled | Detached

  datatype Family = IPv4 | IPv6

  datatype Type = DnsUpdate | FirewallRuleUpdate | TraefikDelivery

  datatype Config =
    | Dns(zone: string, recordName: string)
    | Firewall(firewallId: int, direction: string, protocol: string, port: Option<string>, description: string)
    | Delivery(traefikProviderId: string, group: string)

  /** The CIDR the action itself wrote last, per family. */
  datatype Owned = Owned(ipv4: Option<string>, ipv6: Option<string>)

  datatype State = State(
    actionId: Option<string>,
    accountId: Option<string>,
    ipClientId: Option<string>,
    kind: Option<Type>,
    addressFamilies: seq<Family>,
    config: Option<Config>,
    status: Status,
    owned: Owned)

  const INITIAL := State(None, None, None, None, [], None, Enabled, Owned(None, None))

  datatype Event =
    | Attached(actionId: string, accountId: string, ipClientId: string, kind: Type, families: seq<Family>,
               config: Config)
    | Reconfigured(newFamilies: Option<seq<Family>>, newConfig: Option<Config>)
    | SetEnabled
    | SetDisabled
    | SetDetached
    | FirewallRuleApplied(ipv4: Option<string>, ipv6: Option<string>)

  function Reduce(s: State, e: Event): State {
    match e
    case Attached(id, account, client, kind, families, config) =>
      State(Some(id), Some(account), Some(client), Some(kind), families, Some(config), Enabled, s.owned)
    case Reconfigured(families, config) =>
      s.(addressFamilies := if families.Some? then families.value else s.addressFamilies,
         config := if config.Some? then config else s.config)
    case SetEnabled => s.(status := Enabled)
    case SetDisabled => s.(status := Disabled)
    case SetDetached => s.(status := Detached)
    case FirewallRuleApplied(v4, v6) =>
      s.(owned := Owned(if v4.Some? then v4 else s.owned.ipv4, if v6.Some? then v6 else s.owned.ipv6))
  }

  function Replay(h: seq<Event>): State {
    if h == [] then INITIAL else Reduce(Replay(h[..|h| - 1]), h[|h| - 1])
  }

  // ---- What the replay says, field by field

  function IdSaid(number: nat, e: Event): Option<Option<string>> {
    if e.Attached? then Some(Some(e.actionId)) else None
  }

  function AccountSaid(number: nat, e: Event): Option<Option<string>> {
    if e.Attached? then Some(Some(e.accountId)) else None
  }

  function DeviceSaid(number: nat, e: Event): Option<Option<string>> {
    if e.Attached? then Some(Some(e.ipClientId)) else None
  }

  function KindSaid(number: nat, e: Event): Option<Option<Type>> {
    if e.Attached? then Some(Some(e.kind)) else None
  }

  function FamiliesSaid(number: nat, e: Event): Option<seq<Family>> {
    if e.Attached? then Some(e.families) else if e.Reconfigured? then e.newFamilies else None
  }

  function ConfigSaid(number: nat, e: Event): Option<Option<Config>> {
    if e.Attached? then Some(Some(e.config))
    else if e.Reconfigured? && e.newConfig.Some? then Some(e.newConfig) else None
  }

  function StatusSaid(number: nat, e: Event): Option<Status> {
    match e
    case Attached(_, _, _, _, _, _) => Some(Enabled)
    case SetEnabled => Some(Enabled)
    case SetDisabled => Some(Disabled)
    case SetDetached => Some(Detached)
    case _ => None
  }

  function OwnedIPv4Said(number: nat, e: Event): Option<Option<string>> {
    if e.FirewallRuleApplied? && e.ipv4.Some? then Some(e.ipv4) else None
  }

  function OwnedIPv6Said(number: nat, e: Event): Option<Option<string>> {
    if e.FirewallRuleApplied? && e.ipv6.Some? then Some(e.ipv6) else None
  }

  ghost predicate Says(h: seq<Event>, s: State) {
    && LastSaid(h, IdSaid, None, s.actionId)
    && LastSaid(h, AccountSaid, None, s.accountId)
    && LastSaid(h, DeviceSaid, None, s.ipClientId)
    && LastSaid(h, KindSaid, None, s.kind)
    && LastSaid(h, FamiliesSaid, [], s.addressFamilies)
    && LastSaid(h, ConfigSaid, None, s.config)
    && LastSaid(h, StatusSaid, Enabled, s.status)
    && LastSaid(h, OwnedIPv4Said, None, s.owned.ipv4)
    && LastSaid(h, OwnedIPv6Said, None, s.owned.ipv6)
  }

  /** An action is what its last events say: attached as, configured as last, with the status last set, owning the
      entry of each family that was last recorded. */
  lemma {:induction false} ReplaySays(h: seq<Event>)
    ensures Says(h, Replay(h))
  {
    hide LastSaid;
    if h == [] {
      NothingSaid(IdSaid, None);
      NothingSaid(AccountSaid, None);
      NothingSaid(DeviceSaid, None);
      NothingSaid(KindSaid, None);
      NothingSaid(FamiliesSaid, []);
      NothingSaid(ConfigSaid, None);
      NothingSaid(StatusSaid, Enabled);
      NothingSaid(OwnedIPv4Said, None);
      NothingSaid(OwnedIPv6Said, None);
    } else {
      var before, e := h[..|h| - 1], h[|h| - 1];
      var s := Replay(before);
      ReplaySays(before);
      SaysMore(before, e, IdSaid, None, s.actionId);
      SaysMore(before, e, AccountSaid, None, s.accountId);
      SaysMore(before, e, DeviceSaid, None, s.ipClientId);
      SaysMore(before, e, KindSaid, None, s.kind);
      SaysMore(before, e, FamiliesSaid, [], s.addressFamilies);
      SaysMore(before, e, ConfigSaid, None, s.config);
      SaysMore(before, e, StatusSaid, Enabled, s.status);
      SaysMore(before, e, OwnedIPv4Said, None, s.owned.ipv4);
      SaysMore(before, e, OwnedIPv6Said, None, s.owned.ipv6);
      assert h == before + [e];
    }
  }

  /** The rule each writer checks on the stream it read. Reconfiguring does not look at the status. */
  ghost predicate MayAppend(h: seq<Event>, e: Event) {
    var s := Replay(h);
    match e
    case Attached(_, _, _, _, _, _) => h == []
    case Reconfigured(_, _) => s.actionId.Some?
    case FirewallRuleApplied(_, _) => s.actionId.Some?
    case _ => s.actionId.Some? && s.status != Detached
  }

  ghost predicate Legal(h: seq<Event>) {
    Streams.Legal(MayAppend, h)
  }

  lemma {:induction false} ReplayOfPrefix(h: seq<Event>, i: nat)
    requires i < |h|
    ensures Replay(h[..i + 1]) == Reduce(Replay(h[..i]), h[i])
  {
    assert h[..i + 1][..i] == h[..i];
  }

  /** What each event of a legal stream was checked against, in terms of the state it found. */
  lemma {:induction false} LegalSays(h: seq<Event>, i: nat)
    requires Legal(h) && i < |h|
    ensures h[i].Attached? <==> i == 0
    ensures var s := Replay(h[..i]);
            h[i].SetEnabled? || h[i].SetDisabled? || h[i].SetDetached? ==> s.actionId.Some? && s.status != Detached
  {
    assert MayAppend(h[..i], h[i]);
    if i == 0 {
      assert h[..0] == [];
    }
  }

  /** An action keeps its identity, its kind and its device for life, and once detached stays detached. */
  lemma {:induction false} DetachedIsFinal(h: seq<Event>, i: nat, j: nat)
    requires Legal(h) && 0 < i <= j <= |h|
    ensures Replay(h[..i]).actionId.Some?
    ensures Replay(h[..j]).actionId == Replay(h[..i]).actionId
    ensures Replay(h[..j]).kind == Replay(h[..i]).kind
    ensures Replay(h[..j]).ipClientId == Replay(h[..i]).ipClientId
    ensures Replay(h[..i]).status == Detached ==> Replay(h[..j]).status == Detached
    decreases j
  {
    ReplayOfPrefix(h, j - 1);
    assert MayAppend(h[..j - 1], h[j - 1]);
    if i < j {
      DetachedIsFinal(h, i, j - 1);
    } else if j > 1 {
      DetachedIsFinal(h, j - 1, j - 1);
    } else {
      assert Replay(h[..0]) == INITIAL;
    }
  }

  /** So in every stream that any race of executions and of requests can produce. */
  lemma {:induction false} RacingWritersKeepActionsLegal(run: seq<Streams.Config<Event>>,
          steps: seq<Streams.Step<Event>>, stream: string)
    requires Streams.IsRun(MayAppend, run, steps)
    ensures Streams.GapFree(run[|steps|].table, stream)
    ensures Legal(Streams.History(run[|steps|].table, stream))
    ensures var h := Streams.History(run[|steps|].table, stream);
            forall i, j :: 0 < i <= j <= |h| && Replay(h[..i]).status == Detached ==> Replay(h[..j]).status == Detached
  {
    Streams.StreamsStayLegal(MayAppend, run, steps);
    var h := Streams.History(run[|steps|].table, stream);
    forall i, j | 0 < i <= j <= |h| && Replay(h[..i]).status == Detached ensures Replay(h[..j]).status == Detached {
      DetachedIsFinal(h, i, j);
    }
  }
}

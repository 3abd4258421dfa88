/** Devices: the reducer of an `ip_client` stream, the rules its writers follow, and what they add up to. */
module IpClient {
  import opened Options
  import Streams = EventStreams
  import opened Histories

  datatype Status = Enabled | Disabled | Decommissioned

  datatype Preference = Off | FailuresOnly | All

  datatype State = State(
    ipClientId: Option<string>,
    accountId: Option<string>,
    deviceLabel: string,
    credentialHash: Option<string>,
    status: Status,
    lastKnownIPv4: Option<string>,
    lastKnownIPv6: Option<string>,
    notificationPreference: Preference)
  {
    function LastKnown(): (Option<string>, Option<string>) { (lastKnownIPv4, lastKnownIPv6) }
  }

  const INITIAL := State(None, None, "", None, Enabled, None, None, Off)

  datatype Event =
    | Registered(ipClientId: string, accountId: string, deviceLabel: string, credentialHash: string)
    | CredentialRotated(credentialHash: string)
    | SetEnabled
    | SetDisabled
    | SetDecommissioned
    | IpReportReceived(reportedIPv4: Option<string>, reportedIPv6: Option<string>)
    | IpChanged(previousIPv4: Option<string>, newIPv4: Option<string>, previousIPv6: Option<string>,
                newIPv6: Option<string>)
    | NotificationPreferenceSet(preference: Preference)

  function Reduce(s: State, e: Event): State {
    match e
    case Registered(id, account, deviceLabel, hash) =>
      s.(ipClientId := Some(id), accountId := Some(account), deviceLabel := deviceLabel, credentialHash := Some(hash),
         status := Enabled)
    case CredentialRotated(hash) => s.(credentialHash := Some(hash))
    case SetEnabled => s.(status := Enabled)
    case SetDisabled => s.(status := Disabled)
    case SetDecommissioned => s.(status := Decommissioned)
    case IpReportReceived(_, _) => s
    case IpChanged(_, new4, _, new6) =>
      s.(lastKnownIPv4 := if new4.Some? then new4 else s.lastKnownIPv4,
         lastKnownIPv6 := if new6.Some? then new6 else s.lastKnownIPv6)
    case NotificationPreferenceSet(p) => s.(notificationPreference := p)
  }

  function Replay(h: seq<Event>): State {
    if h == [] then INITIAL else Reduce(Replay(h[..|h| - 1]), h[|h| - 1])
  }

  function LastReport(h: seq<Event>): (r: Option<Event>)
    ensures r.Some? ==> r.value.IpReportReceived? && r.value in h
  {
    if h == [] then None
    else if h[|h| - 1].IpReportReceived? then Some(h[|h| - 1])
    else LastReport(h[..|h| - 1])
  }

  /** What the debounce worker appends after reading the stream, if anything. */
  function Settle(h: seq<Event>): Option<Event> {
    var s := Replay(h);
    var report := LastReport(h);
    if s.status != Enabled || report.None? then None else
      var resolved4 := if report.value.reportedIPv4.Some? then report.value.reportedIPv4 else s.lastKnownIPv4;
      var resolved6 := if report.value.reportedIPv6.Some? then report.value.reportedIPv6 else s.lastKnownIPv6;
      if resolved4 == s.lastKnownIPv4 && resolved6 == s.lastKnownIPv6 then None
      else Some(IpChanged(s.lastKnownIPv4, resolved4, s.lastKnownIPv6, resolved6))
  }

  // ---- What the replay says, field by field

  function IdSaid(number: nat, e: Event): Option<Option<string>> {
    if e.Registered? then Some(Some(e.ipClientId)) else None
  }

  function AccountSaid(number: nat, e: Event): Option<Option<string>> {
    if e.Registered? then Some(Some(e.accountId)) else None
  }

  function LabelSaid(number: nat, e: Event): Option<string> {
    if e.Registered? then Some(e.deviceLabel) else None
  }

  function CredentialSaid(number: nat, e: Event): Option<Option<string>> {
    if e.Registered? || e.CredentialRotated? then Some(Some(e.credentialHash)) else None
  }

  function StatusSaid(number: nat, e: Event): Option<Status> {
    match e
    case Registered(_, _, _, _) => Some(Enabled)
    case SetEnabled => Some(Enabled)
    case SetDisabled => Some(Disabled)
    case SetDecommissioned => Some(Decommissioned)
    case _ => None
  }

  function IPv4Said(number: nat, e: Event): Option<Option<string>> {
    if e.IpChanged? && e.newIPv4.Some? then Some(e.newIPv4) else None
  }

  function IPv6Said(number: nat, e: Event): Option<Option<string>> {
    if e.IpChanged? && e.newIPv6.Some? then Some(e.newIPv6) else None
  }

  function PreferenceSaid(number: nat, e: Event): Option<Preference> {
    if e.NotificationPreferenceSet? then Some(e.preference) else None
  }

  ghost predicate Says(h: seq<Event>, s: State) {
    && LastSaid(h, IdSaid, None, s.ipClientId)
    && LastSaid(h, AccountSaid, None, s.accountId)
    && LastSaid(h, LabelSaid, "", s.deviceLabel)
    && LastSaid(h, CredentialSaid, None, s.credentialHash)
    && LastSaid(h, StatusSaid, Enabled, s.status)
    && LastSaid(h, IPv4Said, None, s.lastKnownIPv4)
    && LastSaid(h, IPv6Said, None, s.lastKnownIPv6)
    && LastSaid(h, PreferenceSaid, Off, s.notificationPreference)
  }

  /** A device is what its last events say: registered as, with the credential and the status last set, at the address
      of each family that was last confirmed. */
  lemma {:induction false} ReplaySays(h: seq<Event>)
    ensures Says(h, Replay(h))
  {
    hide LastSaid;
    if h == [] {
      NothingSaid(IdSaid, None);
      NothingSaid(AccountSaid, None);
      NothingSaid(LabelSaid, "");
      NothingSaid(CredentialSaid, None);
      NothingSaid(StatusSaid, Enabled);
      NothingSaid(IPv4Said, None);
      NothingSaid(IPv6Said, None);
      NothingSaid(PreferenceSaid, Off);
    } else {
      var before, e := h[..|h| - 1], h[|h| - 1];
      var s := Replay(before);
      ReplaySays(before);
      SaysMore(before, e, IdSaid, None, s.ipClientId);
      SaysMore(before, e, AccountSaid, None, s.accountId);
      SaysMore(before, e, LabelSaid, "", s.deviceLabel);
      SaysMore(before, e, CredentialSaid, None, s.credentialHash);
      SaysMore(before, e, StatusSaid, Enabled, s.status);
      SaysMore(before, e, IPv4Said, None, s.lastKnownIPv4);
      SaysMore(before, e, IPv6Said, None, s.lastKnownIPv6);
      SaysMore(before, e, PreferenceSaid, Off, s.notificationPreference);
      assert h == before + [e];
    }
  }

  // ---- What a settlement decides

  ghost predicate IsLatestReport(h: seq<Event>, i: int) {
    && 0 <= i < |h| && h[i].IpReportReceived?
    && forall j :: i < j < |h| ==> !h[j].IpReportReceived?
  }

  ghost predicate NoReport(h: seq<Event>) {
    forall i :: 0 <= i < |h| ==> !h[i].IpReportReceived?
  }

  lemma {:induction false} LastReportSays(h: seq<Event>)
    ensures LastReport(h).None? <==> NoReport(h)
    ensures LastReport(h).Some? ==> exists i :: IsLatestReport(h, i) && h[i] == LastReport(h).value
  {
    if h != [] {
      var n := |h| - 1;
      LastReportSays(h[..n]);
      assert forall i :: 0 <= i < n ==> h[..n][i] == h[i];
      if h[n].IpReportReceived? {
        assert IsLatestReport(h, n);
      } else if i :| IsLatestReport(h[..n], i) && h[..n][i] == LastReport(h[..n]).value {
        assert IsLatestReport(h, i);
      }
    }
  }

  /** The event moves the device to what this report says, family by family; a family it is silent about stays. */
  predicate MovesTo(s: State, report: Event, e: Event)
    requires report.IpReportReceived?
  {
    && e.IpChanged? && e.previousIPv4 == s.lastKnownIPv4 && e.previousIPv6 == s.lastKnownIPv6
    && e.newIPv4 == (if report.reportedIPv4.Some? then report.reportedIPv4 else s.lastKnownIPv4)
    && e.newIPv6 == (if report.reportedIPv6.Some? then report.reportedIPv6 else s.lastKnownIPv6)
  }

  /** Nothing, if the device is not enabled or was never reported, or if the latest report says nothing new of either
      family; else the change to what that report says. */
  ghost predicate SettlesTo(h: seq<Event>, changed: Option<Event>) {
    var s := Replay(h);
    if s.status != Enabled || NoReport(h) then changed.None?
    else
      exists i :: && IsLatestReport(h, i)
                  && (changed.None? <==>
                        && (h[i].reportedIPv4.None? || h[i].reportedIPv4 == s.lastKnownIPv4)
                        && (h[i].reportedIPv6.None? || h[i].reportedIPv6 == s.lastKnownIPv6))
                  && (changed.Some? ==> MovesTo(s, h[i], changed.value))
  }

  lemma {:induction false} SettleSays(h: seq<Event>)
    ensures SettlesTo(h, Settle(h))
  {
    LastReportSays(h);
    hide LastReport, Replay, NoReport;
    if Replay(h).status == Enabled && LastReport(h).Some? {
      var i :| IsLatestReport(h, i) && h[i] == LastReport(h).value;
    }
  }

  /** The rule each writer checks on the stream it read before it appends. */
  ghost predicate MayAppend(h: seq<Event>, e: Event) {
    var s := Replay(h);
    match e
    case Registered(_, _, _, _) => h == []
    case SetEnabled => s.ipClientId.Some? && s.status != Decommissioned
    case SetDisabled => s.ipClientId.Some? && s.status != Decommissioned
    case SetDecommissioned => s.ipClientId.Some? && s.status != Decommissioned
    case CredentialRotated(_) => s.ipClientId.Some? && s.status != Decommissioned
    case NotificationPreferenceSet(_) => s.ipClientId.Some?
    case IpReportReceived(_, _) => s.credentialHash.Some? && s.status == Enabled
    case IpChanged(_, _, _, _) => Settle(h) == Some(e)
  }

  ghost predicate Legal(h: seq<Event>) {
    Streams.Legal(MayAppend, h)
  }

  lemma {:induction false} ReplayOfPrefix(h: seq<Event>, i: nat)
    requires i < |h|
    ensures Replay(h[..i + 1]) == Reduce(Replay(h[..i]), h[i])
  {
    assert h[..i + 1][..i] == h[..i];
  }

  lemma {:induction false} EndStays(h: seq<Event>, e: Event)
    requires MayAppend(h, e) && Replay(h).status == Decommissioned
    ensures Reduce(Replay(h), e).status == Decommissioned && Reduce(Replay(h), e).LastKnown() == Replay(h).LastKnown()
  {
  }

  /** A decommissioned device stays decommissioned, and its addresses stay what they were. */
  lemma {:induction false} DecommissionedIsFinal(h: seq<Event>, i: nat, j: nat)
    requires Legal(h) && i <= j <= |h|
    requires Replay(h[..i]).status == Decommissioned
    ensures Replay(h[..j]).status == Decommissioned
    ensures Replay(h[..j]).LastKnown() == Replay(h[..i]).LastKnown()
    decreases j
  {
    if i < j {
      hide Reduce, Replay;
      DecommissionedIsFinal(h, i, j - 1);
      ReplayOfPrefix(h, j - 1);
      assert MayAppend(h[..j - 1], h[j - 1]);
      EndStays(h[..j - 1], h[j - 1]);
    }
  }

  /** Each recorded change was made while the device was enabled, starts from the replayed pair, moves to
      another one, is what replay yields from then on, and leaves nothing for an immediate second settlement. */
  lemma {:induction false} ChangeIsExact(h: seq<Event>, i: nat)
    requires Legal(h) && i < |h| && h[i].IpChanged?
    ensures Replay(h[..i]).status == Enabled
    ensures Replay(h[..i]).LastKnown() == (h[i].previousIPv4, h[i].previousIPv6)
    ensures Replay(h[..i + 1]).LastKnown() == (h[i].newIPv4, h[i].newIPv6)
    ensures (h[i].previousIPv4, h[i].previousIPv6) != (h[i].newIPv4, h[i].newIPv6)
    ensures Settle(h[..i + 1]) == None
    ensures exists j :: 0 <= j < i && IsLatestReport(h[..i], j) && MovesTo(Replay(h[..i]), h[j], h[i])
  {
    SettleSays(h[..i]);
    assert MayAppend(h[..i], h[i]);
    ReplayOfPrefix(h, i);
    assert h[..i + 1][..i] == h[..i];
    assert LastReport(h[..i + 1]) == LastReport(h[..i]);
  }

  /** What each event of a legal stream was checked against, in terms of the state it found. */
  lemma {:induction false} LegalSays(h: seq<Event>, i: nat)
    requires Legal(h) && i < |h|
    ensures h[i].Registered? <==> i == 0
    ensures var s := Replay(h[..i]);
            && (h[i].SetEnabled? || h[i].SetDisabled? || h[i].SetDecommissioned? || h[i].CredentialRotated? ==>
                  s.ipClientId.Some? && s.status != Decommissioned)
            && (h[i].NotificationPreferenceSet? ==> s.ipClientId.Some?)
            && (h[i].IpReportReceived? ==> s.credentialHash.Some? && s.status == Enabled)
            && (h[i].IpChanged? ==> s.status == Enabled && !NoReport(h[..i]))
  {
    assert MayAppend(h[..i], h[i]);
    if i == 0 {
      assert h[..0] == [];
    }
    if h[i].IpChanged? {
      LastReportSays(h[..i]);
    }
  }

  /** Between two changes the replayed pair does not move. */
  lemma {:induction false} PairMovesOnlyByChanges(h: seq<Event>, i: nat, j: nat)
    requires i <= j <= |h|
    requires forall k :: i <= k < j ==> !h[k].IpChanged?
    ensures Replay(h[..j]).LastKnown() == Replay(h[..i]).LastKnown()
    decreases j
  {
    if i < j {
      PairMovesOnlyByChanges(h, i, j - 1);
      ReplayOfPrefix(h, j - 1);
    }
  }

  /** The changes telescope: the first starts from nothing, each next one where the one before ended,
      and the device's current pair is where the last one ended. */
  lemma {:induction false} ChangesTelescope(h: seq<Event>, i: nat, j: nat)
    requires Legal(h) && i < j <= |h|
    requires forall k :: i < k < j ==> !h[k].IpChanged?
    ensures h[i].IpChanged? && j < |h| && h[j].IpChanged? ==>
              (h[j].previousIPv4, h[j].previousIPv6) == (h[i].newIPv4, h[i].newIPv6)
    ensures h[i].IpChanged? && j == |h| ==> Replay(h).LastKnown() == (h[i].newIPv4, h[i].newIPv6)
    ensures i == 0 && j < |h| && !h[i].IpChanged? && h[j].IpChanged? ==> h[j].previousIPv4 == h[j].previousIPv6 == None
  {
    assert h[..|h|] == h;
    PairMovesOnlyByChanges(h, i + 1, j);
    if h[i].IpChanged? {
      ChangeIsExact(h, i);
    } else if i == 0 {
      PairMovesOnlyByChanges(h, 0, j);
      assert Replay(h[..0]) == INITIAL;
    }
    if j < |h| && h[j].IpChanged? {
      ChangeIsExact(h, j);
    }
  }

  /** All of it holds for every stream that any race of reports, status changes and settlements can produce. */
  lemma {:induction false} RacingWritersKeepDevicesLegal(run: seq<Streams.Config<Event>>,
          steps: seq<Streams.Step<Event>>, stream: string)
    requires Streams.IsRun(MayAppend, run, steps)
    ensures Streams.GapFree(run[|steps|].table, stream)
    ensures Legal(Streams.History(run[|steps|].table, stream))
    ensures var h := Streams.History(run[|steps|].table, stream);
            forall i, j :: 0 <= i <= j <= |h| && Replay(h[..i]).status == Decommissioned ==>
                     Replay(h[..j]).status == Decommissioned
  {
    Streams.StreamsStayLegal(MayAppend, run, steps);
    var h := Streams.History(run[|steps|].table, stream);
    forall i, j | 0 <= i <= j <= |h| && Replay(h[..i]).status == Decommissioned
      ensures Replay(h[..j]).status == Decommissioned {
      DecommissionedIsFinal(h, i, j);
    }
  }
}

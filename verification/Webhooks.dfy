/**
 * Alerts becoming incidents and notifications
 * (`backend/src/webhooks/webhooks.service.ts`), one alert at a time. Dates are
 * kept as the text they arrive as; the registry, the operator's mutes and the
 * queries that fail are whatever they are when the alert arrives.
 */
module Webhooks {
  import opened Wrappers

  datatype Status = Firing | Resolved

  datatype Alert = Alert(
    status: Status, fingerprint: string, labels: map<string, string>,
    summary: Option<string>, description: Option<string>, startsAt: string, endsAt: string)

  datatype Preference = Preference(trendAlerts: bool, capacityAlerts: bool)

  /** What the database knows besides the incidents: servers by name, mutes by server and mountpoint. */
  datatype Registry = Registry(servers: map<string, string>, preferences: map<(string, string), Preference>)

  datatype Incident = Incident(
    alertName: string, severity: string, status: Status, summary: Option<string>, description: Option<string>,
    labels: map<string, string>, startsAt: string, endsAt: Option<string>, serverId: Option<string>)

  datatype Notice = Notice(
    fingerprint: string, alertName: string, severity: string, summary: Option<string>,
    description: Option<string>, serverName: Option<string>, status: Status)

  function Label(alert: Alert, name: string): Option<string> {
    if name in alert.labels then Some(alert.labels[name]) else None
  }

  function LabelOr(alert: Alert, name: string, otherwise: string): string {
    if name in alert.labels then alert.labels[name] else otherwise
  }

  predicate IsWatchdog(alert: Alert) {
    Label(alert, "alertname") == Some("Watchdog")
  }

  /** A disk alert the operator switched off for that mountpoint of that server. */
  predicate IsMuted(alert: Alert, registry: Registry) {
    var name, server, mountpoint := LabelOr(alert, "alertname", ""), LabelOr(alert, "server", ""), LabelOr(alert, "mountpoint", "");
    && (name == "DiskWillFillIn4Days" || name == "DiskAlmostFull")
    && server != "" && mountpoint != ""
    && (server, mountpoint) in registry.preferences
    && var preference := registry.preferences[(server, mountpoint)];
       !(if name == "DiskAlmostFull" then preference.capacityAlerts else preference.trendAlerts)
  }

  /** The row an alert writes, but for when it started. */
  function RowOf(alert: Alert, registry: Registry, startsAt: string): Incident {
    var server := LabelOr(alert, "server", "");
    Incident(
      LabelOr(alert, "alertname", "unknown"), LabelOr(alert, "severity", "warning"), alert.status,
      alert.summary, alert.description, alert.labels, startsAt,
      if alert.status == Resolved then Some(alert.endsAt) else None,
      if server != "" && server in registry.servers then Some(registry.servers[server]) else None)
  }

  function NoticeOf(alert: Alert): Notice {
    Notice(alert.fingerprint, LabelOr(alert, "alertname", "unknown"), LabelOr(alert, "severity", "warning"),
           alert.summary, alert.description, Label(alert, "server"), alert.status)
  }

  datatype Inbox = Inbox(incidents: map<string, Incident>, notices: seq<Notice>, pings: nat)

  const EMPTY := Inbox(map[], [], 0)

  /**
   * Which query rejects, if one does: one before the incident is written (or the
   * settings, for a Watchdog), or the one for the channels, after it is.
   */
  datatype Fate = Goes | FailsFirst | NotifyFails

  /** An alert as it is handled: what the database knows then, and what fails. */
  datatype Delivery = Delivery(alert: Alert, registry: Registry, fate: Fate)

  /** First seen, or firing until now and resolved. */
  predicate Edge(inbox: Inbox, alert: Alert) {
    var known := alert.fingerprint in inbox.incidents;
    !known || (alert.status == Resolved && inbox.incidents[alert.fingerprint].status != Resolved)
  }

  function Upsert(inbox: Inbox, d: Delivery): Inbox {
    var known := d.alert.fingerprint in inbox.incidents;
    var startsAt := if known then inbox.incidents[d.alert.fingerprint].startsAt else d.alert.startsAt;
    inbox.(incidents := inbox.incidents[d.alert.fingerprint := RowOf(d.alert, d.registry, startsAt)],
           notices := if Edge(inbox, d.alert) && d.fate != NotifyFails then inbox.notices + [NoticeOf(d.alert)] else inbox.notices)
  }

  predicate Reaches(d: Delivery) {
    !IsWatchdog(d.alert) && !IsMuted(d.alert, d.registry) && d.fate != FailsFirst
  }

  function Deliver(inbox: Inbox, d: Delivery): Inbox {
    if IsWatchdog(d.alert) && d.fate != FailsFirst then inbox.(pings := inbox.pings + 1)
    else if Reaches(d) then Upsert(inbox, d)
    else inbox
  }

  /** Handling it throws. */
  predicate Throws(inbox: Inbox, d: Delivery) {
    d.fate == FailsFirst || (d.fate == NotifyFails && Reaches(d) && Edge(inbox, d.alert))
  }

  function DeliverAll(inbox: Inbox, deliveries: seq<Delivery>): Inbox
    decreases |deliveries|
  {
    if deliveries == [] then inbox
    else
      var n := |deliveries| - 1;
      Deliver(DeliverAll(inbox, deliveries[..n]), deliveries[n])
  }

  /** How many alerts of a webhook are handled: all, or up to and with the first that throws. */
  function HowFar(inbox: Inbox, deliveries: seq<Delivery>): (n: nat)
    ensures n <= |deliveries|
    decreases |deliveries|
  {
    if deliveries == [] then 0
    else if Throws(inbox, deliveries[0]) then 1
    else 1 + HowFar(Deliver(inbox, deliveries[0]), deliveries[1..])
  }

  class WebhooksService {
    var incidents: map<string, Incident>
    var notices: seq<Notice>
    var pings: nat

    constructor ()
      ensures State() == EMPTY
    {
      incidents, notices, pings := map[], [], 0;
    }

    function State(): Inbox
      reads this
    {
      Inbox(incidents, notices, pings)
    }

    /** `threw` is whether the query for the channels rejected. */
    method UpsertIncident(d: Delivery) returns (threw: bool)
      modifies this
      ensures State() == Upsert(old(State()), d)
      ensures threw <==> Edge(old(State()), d.alert) && d.fate == NotifyFails
    {
      var alert := d.alert;
      var existing := if alert.fingerprint in incidents then Some(incidents[alert.fingerprint]) else None;
      var row := RowOf(alert, d.registry, if existing.Some? then existing.value.startsAt else alert.startsAt);
      incidents := incidents[alert.fingerprint := row];
      var isNew := existing.None?;
      var justResolved := !(existing.Some? && existing.value.status == Resolved) && alert.status == Resolved;
      threw := false;
      if isNew || justResolved {
        if d.fate == NotifyFails {
          return true;
        }
        notices := notices + [Notice(alert.fingerprint, row.alertName, row.severity, row.summary, row.description,
                                     Label(alert, "server"), alert.status)];
      }
    }

    /** The alerts of one webhook; the first that throws ends the loop and fails the request. */
    method HandleAlertmanagerWebhook(deliveries: seq<Delivery>) returns (threw: bool)
      modifies this
      ensures State() == DeliverAll(old(State()), deliveries[..HowFar(old(State()), deliveries)])
      ensures !threw ==> HowFar(old(State()), deliveries) == |deliveries|
      ensures threw ==>
                var n := HowFar(old(State()), deliveries);
                n > 0 && Throws(DeliverAll(old(State()), deliveries[..n - 1]), deliveries[n - 1])
    {
      threw := false;
      var i := 0;
      while i < |deliveries|
        invariant 0 <= i <= |deliveries|
        invariant State() == DeliverAll(old(State()), deliveries[..i])
        invariant HowFar(old(State()), deliveries) == i + HowFar(State(), deliveries[i..])
      {
        assert deliveries[..i + 1][..i] == deliveries[..i];
        assert deliveries[i..][0] == deliveries[i] && deliveries[i..][1..] == deliveries[i + 1..];
        threw := HandleAlert(deliveries[i]);
        i := i + 1;
        if threw {
          return;
        }
      }
      assert deliveries[..i] == deliveries;
    }

    method HandleAlert(d: Delivery) returns (threw: bool)
      modifies this
      ensures State() == Deliver(old(State()), d)
      ensures threw <==> Throws(old(State()), d)
    {
      if d.fate == FailsFirst {
        return true;
      }
      threw := false;
      if IsWatchdog(d.alert) {
        pings := pings + 1;
      } else if !IsMuted(d.alert, d.registry) {
        threw := UpsertIncident(d);
      }
    }
  }

  // ---------------------------------------------------------------------------
  // What one alert says, told from its labels and the database.

  predicate Has(alert: Alert, name: string, value: string) {
    name in alert.labels && alert.labels[name] == value
  }

  /** The operator's switches for the mountpoint the alert names, if it names one they have switches for. */
  function Switches(alert: Alert, registry: Registry): Option<Preference> {
    if "server" in alert.labels && "mountpoint" in alert.labels
       && alert.labels["server"] != "" && alert.labels["mountpoint"] != ""
       && (alert.labels["server"], alert.labels["mountpoint"]) in registry.preferences
    then Some(registry.preferences[(alert.labels["server"], alert.labels["mountpoint"])])
    else None
  }

  /** The switch for trends mutes the alert that foresees a full disk, the one for capacity the alert that finds one. */
  predicate SwitchedOff(alert: Alert, registry: Registry) {
    Switches(alert, registry).Some?
    && ((Has(alert, "alertname", "DiskWillFillIn4Days") && !Switches(alert, registry).value.trendAlerts)
        || (Has(alert, "alertname", "DiskAlmostFull") && !Switches(alert, registry).value.capacityAlerts))
  }

  predicate GetsThrough(d: Delivery) {
    !Has(d.alert, "alertname", "Watchdog") && !SwitchedOff(d.alert, d.registry) && d.fate != FailsFirst
  }

  lemma ReachesIffGetsThrough(d: Delivery)
    ensures Reaches(d) <==> GetsThrough(d)
  {
    assert "DiskAlmostFull"[4] != "DiskWillFillIn4Days"[4];
  }

  /** A label's value, or what stands for it when there is none. */
  predicate Reads(text: string, alert: Alert, name: string, otherwise: string) {
    if name in alert.labels then text == alert.labels[name] else text == otherwise
  }

  /** A row whose first delivery and whose last are these. */
  predicate RowTells(row: Incident, first: Delivery, last: Delivery) {
    && row.startsAt == first.alert.startsAt
    && row.status == last.alert.status
    && (last.alert.status == Resolved ==> row.endsAt == Some(last.alert.endsAt))
    && (last.alert.status == Firing ==> row.endsAt == None)
    && Reads(row.alertName, last.alert, "alertname", "unknown") && Reads(row.severity, last.alert, "severity", "warning")
    && row.summary == last.alert.summary && row.description == last.alert.description && row.labels == last.alert.labels
    && ServerTells(row.serverId, last)
  }

  /** The id of the server the alert names, if it names one that is registered. */
  predicate ServerTells(id: Option<string>, d: Delivery) {
    if "server" in d.alert.labels && d.alert.labels["server"] != "" && d.alert.labels["server"] in d.registry.servers
    then id == Some(d.registry.servers[d.alert.labels["server"]])
    else id == None
  }

  /** A notice of this alert. */
  predicate Announces(notice: Notice, alert: Alert) {
    && notice.fingerprint == alert.fingerprint && notice.status == alert.status
    && Reads(notice.alertName, alert, "alertname", "unknown") && Reads(notice.severity, alert, "severity", "warning")
    && notice.summary == alert.summary && notice.description == alert.description
    && (notice.serverName == None <==> "server" !in alert.labels)
    && (notice.serverName.Some? ==> Has(alert, "server", notice.serverName.value))
  }

  lemma NoticeAnnounces(alert: Alert)
    ensures Announces(NoticeOf(alert), alert)
  {
  }

  lemma RowOfTells(first: Delivery, last: Delivery)
    ensures RowTells(RowOf(last.alert, last.registry, first.alert.startsAt), first, last)
  {
  }

  /** Exactly one notice more, of this alert. */
  predicate OneMore(before: seq<Notice>, after: seq<Notice>, alert: Alert) {
    |after| == |before| + 1 && after[..|before|] == before && Announces(after[|before|], alert)
  }

  // ---------------------------------------------------------------------------
  // A history, told without any state.

  /** The deliveries that reach the inbox for one fingerprint, in order. */
  function About(deliveries: seq<Delivery>, fingerprint: string): seq<Delivery>
    decreases |deliveries|
  {
    if deliveries == [] then []
    else
      var n := |deliveries| - 1;
      var d := deliveries[n];
      About(deliveries[..n], fingerprint)
      + if d.alert.fingerprint == fingerprint && GetsThrough(d) then [d] else []
  }

  /** The two edges: the first time it is seen, and every change from firing to resolved. */
  predicate IsEdge(about: seq<Delivery>, k: nat)
    requires k < |about|
  {
    k == 0 || (about[k - 1].alert.status == Firing && about[k].alert.status == Resolved)
  }

  /** The alerts of the edges, but for those whose channels could not be queried. */
  function Edges(about: seq<Delivery>): seq<Alert>
    decreases |about|
  {
    if about == [] then []
    else
      var n := |about| - 1;
      Edges(about[..n]) + if IsEdge(about, n) && about[n].fate != NotifyFails then [about[n].alert] else []
  }

  function NoticesOf(notices: seq<Notice>, fingerprint: string): seq<Notice>
    decreases |notices|
  {
    if notices == [] then []
    else
      var n := |notices| - 1;
      NoticesOf(notices[..n], fingerprint) + if notices[n].fingerprint == fingerprint then [notices[n]] else []
  }

  function WatchdogCount(deliveries: seq<Delivery>): nat
    decreases |deliveries|
  {
    if deliveries == [] then 0
    else
      var n := |deliveries| - 1;
      WatchdogCount(deliveries[..n])
      + if Has(deliveries[n].alert, "alertname", "Watchdog") && deliveries[n].fate != FailsFirst then 1 else 0
  }

  lemma NoticesSnoc(notices: seq<Notice>, notice: Notice, fingerprint: string)
    ensures NoticesOf(notices + [notice], fingerprint)
         == NoticesOf(notices, fingerprint) + if notice.fingerprint == fingerprint then [notice] else []
  {
    assert (notices + [notice])[..|notices|] == notices;
  }

  /** These are the notices of those alerts, in order. */
  predicate AllAnnounced(notices: seq<Notice>, alerts: seq<Alert>) {
    |notices| == |alerts| && forall k :: 0 <= k < |alerts| ==> Announces(notices[k], alerts[k])
  }

  /** The inbox says of one fingerprint what its deliveries say. */
  predicate Tells(inbox: Inbox, about: seq<Delivery>, fingerprint: string) {
    TellsRow(inbox, about, fingerprint) && AllAnnounced(NoticesOf(inbox.notices, fingerprint), Edges(about))
  }

  predicate TellsRow(inbox: Inbox, about: seq<Delivery>, fingerprint: string) {
    && (fingerprint in inbox.incidents <==> about != [])
    && (about != [] ==> RowTells(inbox.incidents[fingerprint], about[0], about[|about| - 1]))
  }

  lemma AnnouncedSnoc(notices: seq<Notice>, alerts: seq<Alert>, alert: Alert)
    requires AllAnnounced(notices, alerts)
    ensures AllAnnounced(notices + [NoticeOf(alert)], alerts + [alert])
  {
    NoticeAnnounces(alert);
  }

  lemma EdgesGrow(about: seq<Delivery>, d: Delivery)
    ensures Edges(about + [d])
         == if IsEdge(about + [d], |about|) && d.fate != NotifyFails then Edges(about) + [d.alert] else Edges(about)
  {
    assert (about + [d])[..|about|] == about;
  }

  /** What the inbox holds of the last delivery is what makes the next one an edge. */
  lemma EdgeIsTold(inbox: Inbox, about: seq<Delivery>, d: Delivery)
    requires TellsRow(inbox, about, d.alert.fingerprint)
    ensures Edge(inbox, d.alert) <==> IsEdge(about + [d], |about|)
  {
    assert about != [] ==> (about + [d])[|about| - 1] == about[|about| - 1];
  }

  lemma RowMoves(inbox: Inbox, about: seq<Delivery>, d: Delivery)
    requires TellsRow(inbox, about, d.alert.fingerprint)
    ensures TellsRow(Upsert(inbox, d), about + [d], d.alert.fingerprint)
  {
    RowOfTells((about + [d])[0], d);
  }

  lemma NoticesMove(inbox: Inbox, edges: seq<Alert>, d: Delivery)
    requires AllAnnounced(NoticesOf(inbox.notices, d.alert.fingerprint), edges)
    ensures AllAnnounced(NoticesOf(Upsert(inbox, d).notices, d.alert.fingerprint),
                         if Edge(inbox, d.alert) && d.fate != NotifyFails then edges + [d.alert] else edges)
  {
    NoticesSnoc(inbox.notices, NoticeOf(d.alert), d.alert.fingerprint);
    AnnouncedSnoc(NoticesOf(inbox.notices, d.alert.fingerprint), edges, d.alert);
  }

  lemma TellsTheSame(inbox: Inbox, about: seq<Delivery>, d: Delivery, fingerprint: string)
    requires Tells(inbox, about, fingerprint) && d.alert.fingerprint != fingerprint
    ensures Tells(Upsert(inbox, d), about, fingerprint)
  {
    NoticesSnoc(inbox.notices, NoticeOf(d.alert), fingerprint);
  }

  /**
   * After any history, a fingerprint has a row exactly when something about it
   * got through; the row holds what its last delivery says, started when its
   * first one says, ended exactly when it is resolved; and its notifications
   * announce the two edges, in order, but for those whose channels could not be
   * queried.
   */
  lemma {:induction false} InboxTellsHistory(deliveries: seq<Delivery>, fingerprint: string)
    ensures Tells(DeliverAll(EMPTY, deliveries), About(deliveries, fingerprint), fingerprint)
    decreases |deliveries|
  {
    if deliveries != [] {
      var n := |deliveries| - 1;
      var d := deliveries[n];
      InboxTellsHistory(deliveries[..n], fingerprint);
      ReachesIffGetsThrough(d);
      var inbox, about := DeliverAll(EMPTY, deliveries[..n]), About(deliveries[..n], fingerprint);
      if !Reaches(d) {
        assert about + [] == about;
      } else if d.alert.fingerprint == fingerprint {
        RowMoves(inbox, about, d);
        NoticesMove(inbox, Edges(about), d);
        EdgesGrow(about, d);
        EdgeIsTold(inbox, about, d);
      } else {
        TellsTheSame(inbox, about, d, fingerprint);
        assert about + [] == about;
      }
    }
  }

  /** Webhooks arriving one after the other make one history. */
  lemma {:induction false} HistoriesJoin(inbox: Inbox, earlier: seq<Delivery>, later: seq<Delivery>)
    ensures DeliverAll(DeliverAll(inbox, earlier), later) == DeliverAll(inbox, earlier + later)
    decreases |later|
  {
    if later == [] {
      assert earlier + later == earlier;
    } else {
      var n := |later| - 1;
      HistoriesJoin(inbox, earlier, later[..n]);
      assert (earlier + later)[..|earlier + later| - 1] == earlier + later[..n];
    }
  }

  /**
   * After any history, handling an alert throws exactly when its first query
   * rejects, or when it is an edge that gets through and the channels cannot be
   * queried.
   */
  lemma ThrowsIff(deliveries: seq<Delivery>, d: Delivery)
    ensures var about := About(deliveries, d.alert.fingerprint);
            Throws(DeliverAll(EMPTY, deliveries), d) <==>
              d.fate == FailsFirst || (d.fate == NotifyFails && GetsThrough(d) && IsEdge(about + [d], |about|))
  {
    InboxTellsHistory(deliveries, d.alert.fingerprint);
    ReachesIffGetsThrough(d);
  }

  lemma DeliverFirst(inbox: Inbox, d: Delivery, rest: seq<Delivery>)
    ensures DeliverAll(inbox, [d] + rest) == DeliverAll(Deliver(inbox, d), rest)
  {
    HistoriesJoin(inbox, [d], rest);
    assert [d][..0] == [];
    assert DeliverAll(inbox, [d]) == Deliver(inbox, d);
  }

  /** A webhook is handled up to and with the first of its alerts that throws, and to its end if none does. */
  lemma {:induction false} HandledUpToTheFirstThatThrows(inbox: Inbox, deliveries: seq<Delivery>, k: nat)
    requires k < |deliveries|
    ensures k < HowFar(inbox, deliveries) <==> forall j :: 0 <= j < k ==> !Throws(DeliverAll(inbox, deliveries[..j]), deliveries[j])
    decreases |deliveries|
  {
    var first, rest := deliveries[0], deliveries[1..];
    assert deliveries[..0] == [];
    if k > 0 {
      HandledUpToTheFirstThatThrows(Deliver(inbox, first), rest, k - 1);
      forall j | 0 < j < k
        ensures DeliverAll(inbox, deliveries[..j]) == DeliverAll(Deliver(inbox, first), rest[..j - 1]) && rest[j - 1] == deliveries[j]
      {
        assert deliveries[..j] == [first] + rest[..j - 1];
        DeliverFirst(inbox, first, rest[..j - 1]);
      }
      if Throws(inbox, first) {
        assert Throws(DeliverAll(inbox, deliveries[..0]), deliveries[0]);
      } else if forall j :: 0 <= j < k ==> !Throws(DeliverAll(inbox, deliveries[..j]), deliveries[j]) {
        forall j | 0 <= j < k - 1 ensures !Throws(DeliverAll(Deliver(inbox, first), rest[..j]), rest[j]) {
          assert !Throws(DeliverAll(inbox, deliveries[..j + 1]), deliveries[j + 1]);
        }
      }
    }
  }

  lemma {:induction false} WatchdogsArePinged(deliveries: seq<Delivery>)
    ensures DeliverAll(EMPTY, deliveries).pings == WatchdogCount(deliveries)
    decreases |deliveries|
  {
    if deliveries != [] {
      WatchdogsArePinged(deliveries[..|deliveries| - 1]);
    }
  }

  // ---------------------------------------------------------------------------
  // What the edges amount to.

  /** How many deliveries of a list are edges. */
  function Changes(about: seq<Delivery>): nat
    decreases |about|
  {
    if |about| <= 1 then 0
    else
      var n := |about| - 1;
      Changes(about[..n]) + if about[n - 1].alert.status == Firing && about[n].alert.status == Resolved then 1 else 0
  }

  /** How many edges were lost to the query for the channels. */
  function Lost(about: seq<Delivery>): nat
    decreases |about|
  {
    if about == [] then 0
    else
      var n := |about| - 1;
      Lost(about[..n]) + if IsEdge(about, n) && about[n].fate == NotifyFails then 1 else 0
  }

  /** One notification for the first delivery and one for every later change to resolved, less those lost. */
  lemma {:induction false} NotificationCount(deliveries: seq<Delivery>, fingerprint: string)
    ensures var about := About(deliveries, fingerprint);
            |NoticesOf(DeliverAll(EMPTY, deliveries).notices, fingerprint)| + Lost(about)
            == if about == [] then 0 else 1 + Changes(about)
  {
    InboxTellsHistory(deliveries, fingerprint);
    EdgeCount(About(deliveries, fingerprint));
  }

  lemma {:induction false} EdgeCount(about: seq<Delivery>)
    ensures |Edges(about)| + Lost(about) == if about == [] then 0 else 1 + Changes(about)
    decreases |about|
  {
    if |about| > 1 {
      EdgeCount(about[..|about| - 1]);
    } else if |about| == 1 {
      assert about[..0] == [];
    }
  }

  /**
   * After any history, a firing delivery notifies if and only if it is the
   * first of its fingerprint to get through and its channels can be queried: an
   * alert that comes back after it was resolved is silent.
   */
  lemma {:induction false} FiringNotifiesOnlyFirst(deliveries: seq<Delivery>, d: Delivery)
    requires d.alert.status == Firing && GetsThrough(d)
    ensures var before, after := DeliverAll(EMPTY, deliveries).notices, DeliverAll(EMPTY, deliveries + [d]).notices;
            if About(deliveries, d.alert.fingerprint) == [] && d.fate != NotifyFails then OneMore(before, after, d.alert)
            else after == before
  {
    NoticeSentIff(deliveries, d);
  }

  /**
   * After any history, a delivery sends a notice if and only if it gets through,
   * it is an edge of its fingerprint, and its channels can be queried; and then
   * it is one notice, of its own alert.
   */
  lemma {:induction false} NoticeSentIff(deliveries: seq<Delivery>, d: Delivery)
    ensures var about := About(deliveries, d.alert.fingerprint);
            var before, after := DeliverAll(EMPTY, deliveries).notices, DeliverAll(EMPTY, deliveries + [d]).notices;
            if GetsThrough(d) && IsEdge(about + [d], |about|) && d.fate != NotifyFails then OneMore(before, after, d.alert)
            else after == before
  {
    assert (deliveries + [d])[..|deliveries|] == deliveries;
    InboxTellsHistory(deliveries, d.alert.fingerprint);
    ReachesIffGetsThrough(d);
    NoticeAnnounces(d.alert);
  }

  /**
   * So a lost edge is lost for good: the webhook fails and is sent again, the row
   * is already there, and nobody is told the alert fires.
   */
  lemma ResentAlertIsSilent(registry: Registry)
    ensures var firing := Alert(Firing, "f", map[], None, None, "1", "");
            var history := [Delivery(firing, registry, NotifyFails), Delivery(firing, registry, Goes)];
            && HowFar(EMPTY, history[..1]) == 1 && Throws(EMPTY, history[0])
            && DeliverAll(EMPTY, history).notices == []
            && "f" in DeliverAll(EMPTY, history).incidents && DeliverAll(EMPTY, history).incidents["f"].status == Firing
  {
    var firing := Alert(Firing, "f", map[], None, None, "1", "");
    var history := [Delivery(firing, registry, NotifyFails), Delivery(firing, registry, Goes)];
    assert history[..1][..0] == [];
    assert DeliverAll(EMPTY, history[..1]) == Upsert(EMPTY, history[0]);
  }

  /** The history that does it: firing, resolved, firing again; two notices. */
  lemma ReturningAlertIsSilent(registry: Registry)
    ensures var firing := Alert(Firing, "f", map[], None, None, "1", "");
            var resolved := Alert(Resolved, "f", map[], None, None, "1", "2");
            var history := [Delivery(firing, registry, Goes), Delivery(resolved, registry, Goes), Delivery(firing, registry, Goes)];
            && DeliverAll(EMPTY, history).notices == [Notice("f", "unknown", "warning", None, None, None, Firing),
                                                      Notice("f", "unknown", "warning", None, None, None, Resolved)]
            && "f" in DeliverAll(EMPTY, history).incidents && DeliverAll(EMPTY, history).incidents["f"].status == Firing
  {
    var firing := Alert(Firing, "f", map[], None, None, "1", "");
    var resolved := Alert(Resolved, "f", map[], None, None, "1", "2");
    var history := [Delivery(firing, registry, Goes), Delivery(resolved, registry, Goes), Delivery(firing, registry, Goes)];
    assert history[..2][..1] == history[..1] && history[..1][..0] == [];
    assert DeliverAll(EMPTY, history[..1]) == Upsert(EMPTY, history[0]);
    assert DeliverAll(EMPTY, history[..2]) == Upsert(Upsert(EMPTY, history[0]), history[1]);
  }

  /** Delivery `k` is of this fingerprint, resolved, and makes the service send its notice. */
  predicate SendsResolved(deliveries: seq<Delivery>, k: nat, fingerprint: string) {
    && k < |deliveries| && deliveries[k].alert.fingerprint == fingerprint && deliveries[k].alert.status == Resolved
    && OneMore(DeliverAll(EMPTY, deliveries[..k]).notices, DeliverAll(EMPTY, deliveries[..k + 1]).notices, deliveries[k].alert)
  }

  /** What the fingerprint's row says, after the first `k` deliveries. */
  function StatusAfter(deliveries: seq<Delivery>, k: nat, fingerprint: string): Option<Status>
    requires k <= |deliveries|
  {
    var incidents := DeliverAll(EMPTY, deliveries[..k]).incidents;
    if fingerprint in incidents then Some(incidents[fingerprint].status) else None
  }

  predicate FiresAt(deliveries: seq<Delivery>, k: nat, fingerprint: string) {
    k < |deliveries| && deliveries[k].alert.fingerprint == fingerprint
    && deliveries[k].alert.status == Firing && GetsThrough(deliveries[k])
  }

  /** One delivery changes the row's status only if it gets through, and then to its own. */
  lemma StatusMoves(deliveries: seq<Delivery>, k: nat, fingerprint: string)
    requires k < |deliveries|
    ensures StatusAfter(deliveries, k + 1, fingerprint) ==
            if GetsThrough(deliveries[k]) && deliveries[k].alert.fingerprint == fingerprint
            then Some(deliveries[k].alert.status) else StatusAfter(deliveries, k, fingerprint)
    ensures SendsResolved(deliveries, k, fingerprint) ==>
              GetsThrough(deliveries[k]) && StatusAfter(deliveries, k, fingerprint) != Some(Resolved)
  {
    assert deliveries[..k + 1][..k] == deliveries[..k];
    ReachesIffGetsThrough(deliveries[k]);
  }

  /** A row that was resolved and is not any more has seen a firing delivery in between. */
  lemma {:induction false} FiredInBetween(deliveries: seq<Delivery>, i: nat, j: nat, fingerprint: string) returns (k: nat)
    requires i < j <= |deliveries|
    requires StatusAfter(deliveries, i, fingerprint) == Some(Resolved) && StatusAfter(deliveries, j, fingerprint) != Some(Resolved)
    ensures i <= k < j && FiresAt(deliveries, k, fingerprint)
    decreases j
  {
    StatusMoves(deliveries, j - 1, fingerprint);
    if StatusAfter(deliveries, j - 1, fingerprint) == Some(Resolved) {
      k := j - 1;
    } else {
      k := FiredInBetween(deliveries, i, j - 1, fingerprint);
    }
  }

  /**
   * In any history, between two resolved notices of one fingerprint a firing
   * delivery of that fingerprint got through.
   */
  lemma ResolvedNoticesAlternate(deliveries: seq<Delivery>, i: nat, j: nat, fingerprint: string) returns (k: nat)
    requires i < j && SendsResolved(deliveries, i, fingerprint) && SendsResolved(deliveries, j, fingerprint)
    ensures i < k < j && FiresAt(deliveries, k, fingerprint)
  {
    StatusMoves(deliveries, i, fingerprint);
    StatusMoves(deliveries, j, fingerprint);
    k := FiredInBetween(deliveries, i + 1, j, fingerprint);
  }
}

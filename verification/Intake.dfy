/**
 `ingest_case_event` of backend/app/case_intake/service.py for one tenant: events delivered at least
 once and in any order are folded into one link row per case. The payload hash and the content hash are
 taken to be injective, so the payload and the content stand for them.
 */
module Intake {
  import opened Wrappers
  import opened Normalization

  datatype EventType = SnapshotUpserted | PreassessmentRequested | CaseCancelled

  datatype Snapshot = Snapshot(
    caseId: string,
    party: Option<string>,
    manager: Option<string>,
    product: string,
    amount: int,
    documents: seq<string>,
    missing: seq<string>)

  datatype CaseKey = CaseKey(source: string, caseId: string)

  datatype EventKey = EventKey(source: string, id: string)

  /** What the content hash covers. */
  datatype Content = Content(kind: EventType, snapshot: Snapshot)

  datatype Event = Event(id: string, kind: EventType, source: string, version: nat, occurredAt: int, snapshot: Snapshot) {
    function Case(): CaseKey {
      CaseKey(source, snapshot.caseId)
    }

    function Key(): EventKey {
      EventKey(source, id)
    }

    function Hashed(): Content {
      Content(kind, snapshot)
    }
  }

  datatype CaseStatus = Received | MissingInformation | ReadyForPreassessment | Cancelled

  /** One row of `external_case_links`. */
  datatype Link = Link(
    party: Option<string>,
    manager: Option<string>,
    product: string,
    amount: int,
    documents: seq<string>,
    missing: seq<string>,
    version: nat,
    content: Content,
    status: CaseStatus,
    asOf: int,
    conversation: Option<ConvId>)

  datatype Outcome = Accepted | Duplicate | StaleIgnored

  datatype Receipt = Receipt(
    eventId: string, outcome: Outcome, key: CaseKey, version: nat, status: CaseStatus, conversation: Option<ConvId>)

  datatype Entry = Entry(payload: Event, receipt: Receipt)

  datatype Rfi = Rfi(key: CaseKey, missing: seq<string>)

  datatype Store = Store(inbox: map<EventKey, Entry>, links: map<CaseKey, Link>, convs: set<ConvId>)

  datatype Result = Receipted(receipt: Receipt, rfi: Option<Rfi>) | IdempotencyConflict | VersionConflict

  const EMPTY := Store(map[], map[], {})

  function CaseStatusOf(e: Event, missing: seq<string>): CaseStatus {
    if e.kind == CaseCancelled then Cancelled
    else if missing != [] then MissingInformation
    else if e.kind == PreassessmentRequested then ReadyForPreassessment
    else Received
  }

  function ReceiptOf(e: Event, row: Link, outcome: Outcome): Receipt {
    Receipt(e.id, outcome, e.Case(), e.version, row.status, row.conversation)
  }

  function Current(s: Store, c: CaseKey): Option<Link> {
    if c in s.links then Some(s.links[c]) else None
  }

  /** A snapshot keeps the status of the row it updates, and so does any event of a cancelled case. */
  function NextStatus(current: Option<Link>, e: Event): CaseStatus {
    if current.Some? && (e.kind == SnapshotUpserted || current.value.status == Cancelled) then current.value.status
    else CaseStatusOf(e, Normalize(e.snapshot.missing))
  }

  predicate OpensConversation(current: Option<Link>, e: Event, shadow: bool) {
    e.kind == PreassessmentRequested && shadow && NextStatus(current, e) != Cancelled
    && (current.Some? ==> current.value.conversation.None?)
  }

  function NextLink(current: Option<Link>, e: Event, shadow: bool, newConv: ConvId): Link {
    var prior := if current.Some? then current.value.conversation else None;
    Link(e.snapshot.party, e.snapshot.manager, e.snapshot.product, e.snapshot.amount, e.snapshot.documents,
         Normalize(e.snapshot.missing), e.version, e.Hashed(), NextStatus(current, e), e.occurredAt,
         if OpensConversation(current, e, shadow) then Some(newConv) else prior)
  }

  /** A request for information goes out when the missing codes of an open case changed. */
  function RfiOf(current: Option<Link>, e: Event): Option<Rfi> {
    var missing := Normalize(e.snapshot.missing);
    var prior := if current.Some? then Normalize(current.value.missing) else [];
    if e.kind != CaseCancelled && missing != [] && missing != prior then Some(Rfi(e.Case(), missing)) else None
  }

  function Keep(s: Store, e: Event, receipt: Receipt): Store {
    s.(inbox := s.inbox[e.Key() := Entry(e, receipt)])
  }

  /** Taking over a newer version. */
  function Accept(s: Store, e: Event, shadow: bool, newConv: ConvId): Store {
    var current := Current(s, e.Case());
    var link := NextLink(current, e, shadow, newConv);
    Store(s.inbox[e.Key() := Entry(e, ReceiptOf(e, link, Accepted))],
          s.links[e.Case() := link],
          if OpensConversation(current, e, shadow) then s.convs + {newConv} else s.convs)
  }

  /** One delivery; `newConv` is the id a new conversation would get. */
  function Ingest(s: Store, e: Event, shadow: bool, newConv: ConvId): (Store, Result) {
    var current := Current(s, e.Case());
    if e.Key() in s.inbox then
      if s.inbox[e.Key()].payload != e then (s, IdempotencyConflict)
      else (s, Receipted(s.inbox[e.Key()].receipt.(outcome := Duplicate), None))
    else if current.Some? && e.version < current.value.version then
      var receipt := ReceiptOf(e, current.value, StaleIgnored);
      (Keep(s, e, receipt), Receipted(receipt, None))
    else if current.Some? && e.version == current.value.version then
      if current.value.content != e.Hashed() then (s, VersionConflict)
      else
        var receipt := ReceiptOf(e, current.value, Duplicate);
        (Keep(s, e, receipt), Receipted(receipt, None))
    else
      (Accept(s, e, shadow, newConv),
       Receipted(ReceiptOf(e, NextLink(current, e, shadow, newConv), Accepted), RfiOf(current, e)))
  }

  // ------------------------------------------------------------ the tables as they are updated in place

  class IntakeStore {
    var inbox: map<EventKey, Entry>
    var links: map<CaseKey, Link>
    var convs: set<ConvId>

    ghost function View(): Store
      reads this
    {
      Store(inbox, links, convs)
    }

    constructor ()
      ensures View() == EMPTY
    {
      inbox, links, convs := map[], map[], {};
    }

    method InsertInbox(e: Event, receipt: Receipt)
      modifies `inbox
      ensures inbox == old(inbox)[e.Key() := Entry(e, receipt)]
    {
      inbox := inbox[e.Key() := Entry(e, receipt)];
    }

    method IngestCaseEvent(e: Event, shadow: bool, newConv: ConvId) returns (r: Result)
      modifies this
      ensures (View(), r) == Ingest(old(View()), e, shadow, newConv)
    {
      var missing := NormalizeMissingFields(e.snapshot.missing);
      var key := e.Case();
      if e.Key() in inbox {
        if inbox[e.Key()].payload != e {
          return IdempotencyConflict;
        }
        return Receipted(inbox[e.Key()].receipt.(outcome := Duplicate), None);
      }
      var priorMissing := [];
      if key in links {
        priorMissing := NormalizeMissingFields(links[key].missing);
        if e.version < links[key].version {
          var receipt := ReceiptOf(e, links[key], StaleIgnored);
          InsertInbox(e, receipt);
          return Receipted(receipt, None);
        }
        if e.version == links[key].version {
          if links[key].content != e.Hashed() {
            return VersionConflict;
          }
          var receipt := ReceiptOf(e, links[key], Duplicate);
          InsertInbox(e, receipt);
          return Receipted(receipt, None);
        }
      }
      var status;
      if key in links && (e.kind == SnapshotUpserted || links[key].status == Cancelled) {
        status := links[key].status;
      } else {
        status := CaseStatusOf(e, missing);
      }
      var conversation := if key in links then links[key].conversation else None;
      if e.kind == PreassessmentRequested && shadow && status != Cancelled && conversation.None? {
        convs := convs + {newConv};
        conversation := Some(newConv);
      }
      var c := e.snapshot;
      links := links[key := Link(c.party, c.manager, c.product, c.amount, c.documents, missing, e.version, e.Hashed(),
                                 status, e.occurredAt, conversation)];
      var receipt := ReceiptOf(e, links[key], Accepted);
      InsertInbox(e, receipt);
      var rfi := None;
      if e.kind != CaseCancelled && missing != [] && missing != priorMissing {
        rfi := Some(Rfi(key, missing));
      }
      return Receipted(receipt, rfi);
    }
  }

  // ------------------------------------------------------------ runs

  datatype Delivery = Delivery(event: Event, shadow: bool, newConv: ConvId)

  function Sent(r: Result): seq<Rfi> {
    if r.Receipted? && r.rfi.Some? then [r.rfi.value] else []
  }

  /** The tables and the requests for information after delivering a sequence. */
  function Run(ds: seq<Delivery>): (Store, seq<Rfi>) {
    if ds == [] then (EMPTY, [])
    else
      var (s, sent) := Run(ds[..|ds| - 1]);
      var d := ds[|ds| - 1];
      var (t, r) := Ingest(s, d.event, d.shadow, d.newConv);
      (t, sent + Sent(r))
  }

  // ------------------------------------------------------------ convergence

  /** What the deliveries of a source must promise: an event id stands for one payload, and one version of
      a case for one content. */
  ghost predicate Coherent(ds: seq<Delivery>) {
    && IdsDetermine(ds)
    && forall i, j :: 0 <= i < |ds| && 0 <= j < |ds| && ds[i].event.Case() == ds[j].event.Case()
                      && ds[i].event.version == ds[j].event.version
                      ==> ds[i].event.Hashed() == ds[j].event.Hashed()
  }

  ghost predicate IdsDetermine(ds: seq<Delivery>) {
    forall i, j :: 0 <= i < |ds| && 0 <= j < |ds| && ds[i].event.Key() == ds[j].event.Key() ==> ds[i].event == ds[j].event
  }

  predicate Delivered(ds: seq<Delivery>, e: Event) {
    exists i :: 0 <= i < |ds| && ds[i].event == e
  }

  /** What a link row takes from the event that made it, apart from the time stamp. */
  datatype Facts = Facts(version: nat, content: Content, party: Option<string>, manager: Option<string>,
                         product: string, amount: int, documents: seq<string>, missing: seq<string>)

  function FactsOf(l: Link): Facts {
    Facts(l.version, l.content, l.party, l.manager, l.product, l.amount, l.documents, l.missing)
  }

  function FactsFrom(version: nat, c: Content): Facts {
    Facts(version, c, c.snapshot.party, c.snapshot.manager, c.snapshot.product, c.snapshot.amount,
          c.snapshot.documents, Normalize(c.snapshot.missing))
  }

  /** The row shows the newest delivered version of its case. */
  ghost predicate ShowsNewest(l: Link, c: CaseKey, ds: seq<Delivery>) {
    && FactsOf(l) == FactsFrom(l.version, l.content)
    && (exists i :: 0 <= i < |ds| && ds[i].event.Case() == c && ds[i].event.version == l.version
                    && ds[i].event.Hashed() == l.content)
    && (forall i :: 0 <= i < |ds| && ds[i].event.Case() == c ==> ds[i].event.version <= l.version)
  }

  /** The tables reflect the deliveries. */
  ghost predicate Reflects(s: Store, ds: seq<Delivery>) {
    && (forall k :: k in s.inbox ==> s.inbox[k].payload.Key() == k && Delivered(ds, s.inbox[k].payload))
    && (forall c :: c in s.links ==> ShowsNewest(s.links[c], c, ds))
    && (forall i :: 0 <= i < |ds| ==> ds[i].event.Case() in s.links)
  }

  lemma ShowsMore(l: Link, c: CaseKey, ds: seq<Delivery>, d: Delivery)
    requires ShowsNewest(l, c, ds) && (d.event.Case() == c ==> d.event.version <= l.version)
    ensures ShowsNewest(l, c, ds + [d])
  {
    hide FactsOf, FactsFrom;
    var i :| 0 <= i < |ds| && ds[i].event.Case() == c && ds[i].event.version == l.version
             && ds[i].event.Hashed() == l.content;
    assert (ds + [d])[i] == ds[i];
  }

  lemma InboxKeeps(s: Store, t: Store, ds: seq<Delivery>, d: Delivery, receipt: Receipt)
    requires Reflects(s, ds) && (t.inbox == s.inbox || t.inbox == s.inbox[d.event.Key() := Entry(d.event, receipt)])
    ensures forall k :: k in t.inbox ==> t.inbox[k].payload.Key() == k && Delivered(ds + [d], t.inbox[k].payload)
  {
    hide ShowsNewest;
    forall e | Delivered(ds, e) ensures Delivered(ds + [d], e) {
      var i :| 0 <= i < |ds| && ds[i].event == e;
      assert (ds + [d])[i] == ds[i];
    }
    assert (ds + [d])[|ds|] == d;
  }

  /** A delivery that is no news leaves the links as they are. */
  lemma OldReflects(s: Store, t: Store, ds: seq<Delivery>, d: Delivery, receipt: Receipt)
    requires Reflects(s, ds) && t.links == s.links
    requires t.inbox == s.inbox || t.inbox == s.inbox[d.event.Key() := Entry(d.event, receipt)]
    requires d.event.Case() in s.links && d.event.version <= s.links[d.event.Case()].version
    ensures Reflects(t, ds + [d])
  {
    hide ShowsNewest, Delivered;
    InboxKeeps(s, t, ds, d, receipt);
    forall c | c in t.links ensures ShowsNewest(t.links[c], c, ds + [d]) {
      ShowsMore(s.links[c], c, ds, d);
    }
  }

  lemma NewShows(l: Link, ds: seq<Delivery>, d: Delivery)
    requires FactsOf(l) == FactsFrom(d.event.version, d.event.Hashed())
    requires forall i :: 0 <= i < |ds| && ds[i].event.Case() == d.event.Case() ==> ds[i].event.version < d.event.version
    ensures ShowsNewest(l, d.event.Case(), ds + [d])
  {
    assert (ds + [d])[|ds|] == d;
    hide Normalize;
  }

  lemma AcceptReflects(s: Store, ds: seq<Delivery>, d: Delivery)
    requires Reflects(s, ds)
    requires d.event.Case() in s.links ==> s.links[d.event.Case()].version < d.event.version
    ensures Reflects(Accept(s, d.event, d.shadow, d.newConv), ds + [d])
  {
    hide Normalize, OpensConversation, NextStatus, Delivered;
    var t := Accept(s, d.event, d.shadow, d.newConv);
    InboxKeeps(s, t, ds, d, t.inbox[d.event.Key()].receipt);
    forall i | 0 <= i < |ds| && ds[i].event.Case() == d.event.Case() ensures ds[i].event.version < d.event.version {
      assert ShowsNewest(s.links[d.event.Case()], d.event.Case(), ds);
    }
    NewShows(t.links[d.event.Case()], ds, d);
    hide ShowsNewest;
    forall c | c in t.links ensures ShowsNewest(t.links[c], c, ds + [d]) {
      if c != d.event.Case() {
        ShowsMore(s.links[c], c, ds, d);
      }
    }
  }

  lemma KnownPayload(s: Store, ds: seq<Delivery>, d: Delivery)
    requires Reflects(s, ds) && IdsDetermine(ds + [d]) && d.event.Key() in s.inbox
    ensures s.inbox[d.event.Key()].payload == d.event
    ensures d.event.Case() in s.links && d.event.version <= s.links[d.event.Case()].version
  {
    var i :| 0 <= i < |ds| && ds[i].event == s.inbox[d.event.Key()].payload;
    assert (ds + [d])[i] == ds[i] && (ds + [d])[|ds|] == d;
    assert ShowsNewest(s.links[ds[i].event.Case()], ds[i].event.Case(), ds);
  }

  lemma SameContent(s: Store, ds: seq<Delivery>, d: Delivery)
    requires Reflects(s, ds) && Coherent(ds + [d])
    requires d.event.Case() in s.links && d.event.version == s.links[d.event.Case()].version
    ensures s.links[d.event.Case()].content == d.event.Hashed()
  {
    var l := s.links[d.event.Case()];
    assert ShowsNewest(l, d.event.Case(), ds);
    var i :| 0 <= i < |ds| && ds[i].event.Case() == d.event.Case() && ds[i].event.version == l.version
             && ds[i].event.Hashed() == l.content;
    assert (ds + [d])[i] == ds[i] && (ds + [d])[|ds|] == d;
  }

  /** A delivery of a coherent source is never refused, and the tables go on reflecting the deliveries. */
  lemma IngestReflects(s: Store, ds: seq<Delivery>, d: Delivery)
    requires Reflects(s, ds) && Coherent(ds + [d])
    ensures var (t, r) := Ingest(s, d.event, d.shadow, d.newConv); Reflects(t, ds + [d]) && r.Receipted?
  {
    hide Reflects, Coherent, Accept, NextLink, RfiOf, ReceiptOf;
    var e := d.event;
    var t := Ingest(s, e, d.shadow, d.newConv).0;
    if e.Key() in s.inbox {
      CoherentIds(ds + [d]);
      KnownPayload(s, ds, d);
      OldReflects(s, t, ds, d, s.inbox[e.Key()].receipt);
    } else if e.Case() in s.links && e.version <= s.links[e.Case()].version {
      if e.version == s.links[e.Case()].version {
        SameContent(s, ds, d);
      }
      OldReflects(s, t, ds, d, t.inbox[e.Key()].receipt);
    } else {
      AcceptReflects(s, ds, d);
    }
  }

  lemma CoherentIds(ds: seq<Delivery>)
    requires Coherent(ds)
    ensures IdsDetermine(ds)
  {
  }

  lemma CoherentPrefix(ds: seq<Delivery>)
    requires Coherent(ds) && ds != []
    ensures Coherent(ds[..|ds| - 1])
  {
  }

  lemma {:induction false} RunReflects(ds: seq<Delivery>)
    requires Coherent(ds)
    ensures Reflects(Run(ds).0, ds)
  {
    hide Reflects, Coherent, Ingest;
    if ds == [] {
      EmptyReflects();
    } else {
      var n := |ds| - 1;
      CoherentPrefix(ds);
      RunReflects(ds[..n]);
      assert ds == ds[..n] + [ds[n]];
      IngestReflects(Run(ds[..n]).0, ds[..n], ds[n]);
    }
  }

  lemma EmptyReflects()
    ensures Reflects(EMPTY, [])
  {
  }

  ghost predicate SameEvents(a: seq<Delivery>, b: seq<Delivery>) {
    forall e :: Delivered(a, e) <==> Delivered(b, e)
  }

  lemma RowShowsNewest(s: Store, ds: seq<Delivery>, e: Event)
    requires Reflects(s, ds) && Delivered(ds, e)
    ensures e.Case() in s.links && ShowsNewest(s.links[e.Case()], e.Case(), ds)
  {
    hide ShowsNewest;
    var i :| 0 <= i < |ds| && ds[i].event == e;
  }

  lemma NewestShown(l: Link, ds: seq<Delivery>, e: Event)
    requires ShowsNewest(l, e.Case(), ds) && Coherent(ds) && Delivered(ds, e)
    requires forall i :: 0 <= i < |ds| && ds[i].event.Case() == e.Case() ==> ds[i].event.version <= e.version
    ensures FactsOf(l) == FactsFrom(e.version, e.Hashed())
  {
    hide FactsFrom, FactsOf, IdsDetermine;
    var i :| 0 <= i < |ds| && ds[i].event.Case() == e.Case() && ds[i].event.version == l.version
             && ds[i].event.Hashed() == l.content;
    var j :| 0 <= j < |ds| && ds[j].event == e;
    assert ds[j].event.version <= l.version;
    assert ds[i].event.version == ds[j].event.version;
  }

  /** The row of a case shows the delivered event with the highest version, however the deliveries came. */
  lemma NewestWins(ds: seq<Delivery>, e: Event)
    requires Coherent(ds) && Delivered(ds, e)
    requires forall i :: 0 <= i < |ds| && ds[i].event.Case() == e.Case() ==> ds[i].event.version <= e.version
    ensures var s := Run(ds).0;
      e.Case() in s.links && FactsOf(s.links[e.Case()]) == FactsFrom(e.version, e.Hashed())
  {
    hide Run, FactsFrom, FactsOf, Coherent, Reflects, ShowsNewest, Delivered;
    RunReflects(ds);
    RowShowsNewest(Run(ds).0, ds, e);
    NewestShown(Run(ds).0.links[e.Case()], ds, e);
  }

  lemma NewestEvent(ds: seq<Delivery>, c: CaseKey) returns (e: Event)
    requires Reflects(Run(ds).0, ds) && c in Run(ds).0.links
    ensures Delivered(ds, e) && e.Case() == c
    ensures forall i :: 0 <= i < |ds| && ds[i].event.Case() == c ==> ds[i].event.version <= e.version
  {
    hide Run, FactsOf, FactsFrom;
    var l := Run(ds).0.links[c];
    assert ShowsNewest(l, c, ds);
    var i :| 0 <= i < |ds| && ds[i].event.Case() == c && ds[i].event.version == l.version
             && ds[i].event.Hashed() == l.content;
    e := ds[i].event;
  }

  lemma LinkAgrees(a: seq<Delivery>, b: seq<Delivery>, c: CaseKey)
    requires Coherent(a) && Coherent(b) && SameEvents(a, b) && c in Run(a).0.links
    ensures c in Run(b).0.links && FactsOf(Run(a).0.links[c]) == FactsOf(Run(b).0.links[c])
  {
    hide Run, FactsFrom, FactsOf, Coherent;
    RunReflects(a);
    var e := NewestEvent(a, c);
    assert forall i :: 0 <= i < |b| ==> Delivered(b, b[i].event);
    NewestWins(a, e);
    NewestWins(b, e);
  }

  /** Convergence: two delivery sequences with the same events, in any order and with any duplication,
      end with the same version, content, amount, product, documents and missing codes for every case. */
  lemma DeliveriesConverge(a: seq<Delivery>, b: seq<Delivery>)
    requires Coherent(a) && Coherent(b) && SameEvents(a, b)
    ensures var (s, t) := (Run(a).0, Run(b).0);
      s.links.Keys == t.links.Keys && forall c :: c in s.links ==> FactsOf(s.links[c]) == FactsOf(t.links[c])
  {
    hide Run, Coherent, Reflects, FactsOf;
    var s, t := Run(a).0, Run(b).0;
    forall c ensures (c in s.links <==> c in t.links) && (c in s.links ==> FactsOf(s.links[c]) == FactsOf(t.links[c])) {
      if c in s.links {
        LinkAgrees(a, b, c);
      }
      if c in t.links {
        LinkAgrees(b, a, c);
      }
    }
  }

  function Twice(d: Delivery, e: Delivery): Store {
    Ingest(Ingest(EMPTY, d.event, d.shadow, d.newConv).0, e.event, e.shadow, e.newConv).0
  }

  /** Two events of a case converge in both orders exactly when they have one content, or differ in both
      id and version: a reused id or version lets the first delivery win. */
  lemma PairConvergesIff(d: Delivery, e: Delivery)
    requires d.event.Case() == e.event.Case()
    ensures var c := d.event.Case();
      && c in Twice(d, e).links && c in Twice(e, d).links
      && (Twice(d, e).links[c].content == Twice(e, d).links[c].content
          <==> d.event.Hashed() == e.event.Hashed()
               || (d.event.id != e.event.id && d.event.version != e.event.version))
  {
    hide Normalize, RfiOf, ReceiptOf, CaseStatusOf;
  }

  // ------------------------------------------------------------ what one delivery may change

  /** How a link row may change over any number of deliveries. */
  predicate LinkMoves(a: Link, b: Link) {
    || b == a
    || (&& a.version < b.version
        && (a.status == Cancelled ==> b.status == Cancelled && b.conversation == a.conversation)
        && (a.conversation.Some? ==> b.conversation == a.conversation))
  }

  /** Accepted versions of a case strictly increase, cancelled is absorbing, and a conversation is set at
      most once and never changed. */
  lemma IngestMoves(s: Store, d: Delivery, c: CaseKey)
    requires c in s.links
    ensures var t := Ingest(s, d.event, d.shadow, d.newConv).0;
      c in t.links && LinkMoves(s.links[c], t.links[c])
  {
    hide Normalize, RfiOf, ReceiptOf, CaseStatusOf;
  }

  lemma {:induction false} RunMoves(ds: seq<Delivery>, n: nat, c: CaseKey)
    requires n <= |ds| && c in Run(ds[..n]).0.links
    ensures c in Run(ds).0.links && LinkMoves(Run(ds[..n]).0.links[c], Run(ds).0.links[c])
    decreases |ds|
  {
    hide Ingest;
    if n == |ds| {
      assert ds[..n] == ds;
    } else {
      var m := |ds| - 1;
      assert ds[..m][..n] == ds[..n];
      RunMoves(ds[..m], n, c);
      IngestMoves(Run(ds[..m]).0, ds[m], c);
    }
  }

  /** The one conversation a delivery creates belongs to the case of its event, which is not cancelled and
      had none. */
  lemma ConversationIsLinked(s: Store, d: Delivery)
    requires d.newConv !in s.convs
    ensures var t := Ingest(s, d.event, d.shadow, d.newConv).0; var c := d.event.Case();
      t.convs != s.convs ==>
        && t.convs == s.convs + {d.newConv}
        && c in t.links && t.links[c].conversation == Some(d.newConv) && t.links[c].status != Cancelled
        && (c in s.links ==> s.links[c].conversation.None? && s.links[c].status != Cancelled)
  {
    hide Normalize, RfiOf, ReceiptOf, CaseStatusOf;
  }

  /** A conversation found in a link after a delivery was there before or is the new one. */
  lemma ConversationSource(s: Store, d: Delivery, c: CaseKey)
    ensures var t := Ingest(s, d.event, d.shadow, d.newConv).0;
      c in t.links && t.links[c].conversation.Some? ==>
        || (c in s.links && s.links[c].conversation == t.links[c].conversation)
        || (t.links[c].conversation == Some(d.newConv) && d.newConv in t.convs)
  {
    hide Normalize, RfiOf, ReceiptOf, CaseStatusOf;
  }

  // ------------------------------------------------------------ redeliveries

  /** The first delivery of each event. */
  function Firsts(ds: seq<Delivery>): seq<Delivery> {
    if ds == [] then []
    else
      var n := |ds| - 1;
      Firsts(ds[..n]) + (if Delivered(ds[..n], ds[n].event) then [] else [ds[n]])
  }

  /** Every delivered event is at most as new as the row of its case. */
  ghost predicate Absorbs(s: Store, ds: seq<Delivery>) {
    && (forall k :: k in s.inbox ==> s.inbox[k].payload.Key() == k && Delivered(ds, s.inbox[k].payload))
    && (forall i :: 0 <= i < |ds| ==> Old(s, ds[i].event))
  }

  predicate Old(s: Store, e: Event) {
    e.Case() in s.links && e.version <= s.links[e.Case()].version
  }

  lemma InboxIsDelivered(s: Store, ds: seq<Delivery>, d: Delivery)
    requires Absorbs(s, ds) && IdsDetermine(ds + [d]) && d.event.Key() in s.inbox
    ensures s.inbox[d.event.Key()].payload == d.event && Delivered(ds, d.event)
  {
    var i :| 0 <= i < |ds| && ds[i].event == s.inbox[d.event.Key()].payload;
    assert (ds + [d])[i] == ds[i] && (ds + [d])[|ds|] == d;
  }

  lemma OldIsNoNews(s: Store, d: Delivery)
    requires Old(s, d.event) && (d.event.Key() in s.inbox ==> s.inbox[d.event.Key()].payload == d.event)
    ensures var (t, r) := Ingest(s, d.event, d.shadow, d.newConv);
      && t.links == s.links && t.convs == s.convs && Sent(r) == []
      && (t.inbox == s.inbox || exists receipt :: t.inbox == s.inbox[d.event.Key() := Entry(d.event, receipt)])
  {
    hide Normalize, RfiOf, NextLink;
  }

  lemma NewsIsOldAfter(s: Store, d: Delivery)
    requires d.event.Key() !in s.inbox
    ensures Old(Ingest(s, d.event, d.shadow, d.newConv).0, d.event)
    ensures forall e :: Old(s, e) ==> Old(Ingest(s, d.event, d.shadow, d.newConv).0, e)
    ensures forall k :: k in Ingest(s, d.event, d.shadow, d.newConv).0.inbox && k != d.event.Key()
              ==> k in s.inbox && Ingest(s, d.event, d.shadow, d.newConv).0.inbox[k] == s.inbox[k]
    ensures var t := Ingest(s, d.event, d.shadow, d.newConv).0;
      d.event.Key() in t.inbox ==> t.inbox[d.event.Key()].payload == d.event
  {
    hide Normalize, RfiOf, OpensConversation, NextStatus;
  }

  lemma DeliveredGrows(ds: seq<Delivery>, d: Delivery, e: Event)
    ensures Delivered(ds + [d], e) <==> Delivered(ds, e) || d.event == e
  {
    if Delivered(ds, e) {
      var i :| 0 <= i < |ds| && ds[i].event == e;
      assert (ds + [d])[i] == ds[i];
    }
    assert (ds + [d])[|ds|] == d;
  }

  lemma IngestAbsorbs(s: Store, ds: seq<Delivery>, d: Delivery)
    requires Absorbs(s, ds) && IdsDetermine(ds + [d])
    ensures Absorbs(Ingest(s, d.event, d.shadow, d.newConv).0, ds + [d])
  {
    hide Ingest, IdsDetermine, Delivered, Old;
    var t := Ingest(s, d.event, d.shadow, d.newConv).0;
    forall e ensures Delivered(ds + [d], e) <==> Delivered(ds, e) || d.event == e {
      DeliveredGrows(ds, d, e);
    }
    if d.event.Key() in s.inbox {
      InboxIsDelivered(s, ds, d);
      OldOfDelivered(s, ds, d.event);
      OldIsNoNews(s, d);
      SameLinksOld(s, t);
    } else {
      NewsIsOldAfter(s, d);
    }
  }

  lemma OldOfDelivered(s: Store, ds: seq<Delivery>, e: Event)
    requires Absorbs(s, ds) && Delivered(ds, e)
    ensures Old(s, e)
  {
    hide Old;
  }

  lemma SameLinksOld(s: Store, t: Store)
    requires s.links == t.links
    ensures forall e :: Old(s, e) <==> Old(t, e)
  {
  }

  /** `b` has the same rows as `a`; what only `a` has in its inbox is old. */
  ghost predicate Similar(a: Store, b: Store) {
    && a.links == b.links && a.convs == b.convs
    && (forall k :: k in b.inbox ==> k in a.inbox && a.inbox[k].payload == b.inbox[k].payload)
  }

  lemma FirstKeepsSimilar(a: Store, b: Store, d: Delivery)
    requires Similar(a, b) && d.event.Key() !in a.inbox
    ensures var (s, r) := Ingest(a, d.event, d.shadow, d.newConv);
      var (t, q) := Ingest(b, d.event, d.shadow, d.newConv);
      Similar(s, t) && Sent(r) == Sent(q)
  {
    hide Normalize, RfiOf, NextLink, OpensConversation;
  }

  lemma AgainKeepsSimilar(a: Store, b: Store, d: Delivery)
    requires Similar(a, b) && Old(a, d.event)
    requires d.event.Key() in a.inbox ==> a.inbox[d.event.Key()].payload == d.event
    ensures var (s, r) := Ingest(a, d.event, d.shadow, d.newConv);
      Similar(s, b) && Sent(r) == []
  {
    hide Ingest, Old;
    OldIsNoNews(a, d);
  }

  lemma {:induction false} FirstsSimilar(ds: seq<Delivery>)
    requires IdsDetermine(ds)
    ensures Absorbs(Run(ds).0, ds)
    ensures Similar(Run(ds).0, Run(Firsts(ds)).0) && Run(ds).1 == Run(Firsts(ds)).1
    decreases |ds|
  {
    hide Absorbs, Similar, Delivered, IdsDetermine, Ingest, Sent, Old;
    if ds == [] {
      NothingDelivered();
    } else {
      var n := |ds| - 1;
      var init, d := ds[..n], ds[n];
      assert ds == init + [d];
      IdsPrefix(ds);
      FirstsSimilar(init);
      var a, b := Run(init).0, Run(Firsts(init)).0;
      IngestAbsorbs(a, init, d);
      if d.event.Key() in a.inbox {
        InboxIsDelivered(a, init, d);
      }
      if Delivered(init, d.event) {
        OldOfDelivered(a, init, d.event);
        AgainKeepsSimilar(a, b, d);
        assert Firsts(ds) == Firsts(init);
        assert Run(init).1 + [] == Run(init).1;
      } else {
        FirstKeepsSimilar(a, b, d);
        assert (Firsts(init) + [d])[..|Firsts(init)|] == Firsts(init);
      }
    }
  }

  lemma NothingDelivered()
    ensures Absorbs(EMPTY, []) && Similar(EMPTY, EMPTY)
  {
  }

  lemma IdsPrefix(ds: seq<Delivery>)
    requires IdsDetermine(ds) && ds != []
    ensures IdsDetermine(ds[..|ds| - 1])
  {
  }

  /** Dropping every redelivery leaves links, conversations and requests for information as they are. */
  lemma RedeliveriesAreHarmless(ds: seq<Delivery>)
    requires IdsDetermine(ds)
    ensures var (s, sent) := Run(ds); var (t, sent') := Run(Firsts(ds));
      s.links == t.links && s.convs == t.convs && sent == sent'
  {
    FirstsSimilar(ds);
  }
}

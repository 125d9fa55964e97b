/**
 The rows of the case intake read off the accepted deliveries: what every status, conversation, receipt and
 request for information goes back to.
 */
module IntakeHistory {
  import opened Wrappers
  import opened Normalization
  import opened Intake

  /** Whether the last delivery was accepted for the case. */
  predicate AcceptsFor(s: Store, d: Delivery, c: CaseKey) {
    var (_, r) := Ingest(s, d.event, d.shadow, d.newConv);
    d.event.Case() == c && r.Receipted? && r.receipt.outcome.Accepted?
  }

  /** The deliveries accepted for a case, in order. */
  function AcceptedFor(ds: seq<Delivery>, c: CaseKey): seq<Delivery> {
    if ds == [] then []
    else
      var n := |ds| - 1;
      AcceptedFor(ds[..n], c) + (if AcceptsFor(Run(ds[..n]).0, ds[n], c) then [ds[n]] else [])
  }

  predicate Cancels(d: Delivery) {
    d.event.kind == CaseCancelled
  }

  predicate AnyCancels(hist: seq<Delivery>) {
    exists i :: 0 <= i < |hist| && Cancels(hist[i])
  }

  /** The delivery that decides the status of an open case: the last one that is no snapshot, or the first of
      all when there are only snapshots. */
  predicate Decides(hist: seq<Delivery>, i: nat) {
    && i < |hist|
    && (hist[i].event.kind != SnapshotUpserted || i == 0)
    && forall j :: i < j < |hist| ==> hist[j].event.kind == SnapshotUpserted
  }

  /** The status of a case by what was accepted for it. */
  predicate StatusFits(status: CaseStatus, hist: seq<Delivery>) {
    && (status == Cancelled <==> AnyCancels(hist))
    && forall i :: 0 <= i < |hist| && Decides(hist, i) && !AnyCancels(hist) ==>
         DecidedBy(status, hist[i].event)
  }

  /** The status that a deciding event gives an open case. */
  predicate DecidedBy(status: CaseStatus, e: Event) {
    && (status == MissingInformation <==> e.snapshot.missing != [])
    && (status == ReadyForPreassessment <==> e.snapshot.missing == [] && e.kind == PreassessmentRequested)
    && (status == Received <==> e.snapshot.missing == [] && e.kind == SnapshotUpserted)
  }

  /** A request in shadow mode before which nothing cancelled the case. */
  predicate Opens(hist: seq<Delivery>, i: nat) {
    && i < |hist| && hist[i].shadow && hist[i].event.kind == PreassessmentRequested
    && forall j :: 0 <= j < i ==> !Cancels(hist[j])
  }

  /** The conversation is that of the first delivery that opens one. */
  predicate ConversationFits(conversation: Option<ConvId>, hist: seq<Delivery>) {
    match conversation
    case None => forall i :: 0 <= i < |hist| ==> !Opens(hist, i)
    case Some(v) =>
      exists i :: 0 <= i < |hist| && Opens(hist, i) && hist[i].newConv == v && forall j :: 0 <= j < i ==> !Opens(hist, j)
  }

  /** The row of a case shows the last accepted delivery, and its status and conversation go back to the
      accepted ones. */
  predicate RowFits(l: Link, hist: seq<Delivery>) {
    && hist != []
    && (var e := hist[|hist| - 1].event;
        FactsOf(l) == FactsFrom(e.version, e.Hashed()) && l.asOf == e.occurredAt)
    && StatusFits(l.status, hist)
    && ConversationFits(l.conversation, hist)
  }

  ghost predicate HistoryOk(s: Store, ds: seq<Delivery>, c: CaseKey) {
    if c in s.links then RowFits(s.links[c], AcceptedFor(ds, c)) else AcceptedFor(ds, c) == []
  }

  // ------------------------------------------------------------ one more accepted delivery

  lemma NoCodesIff(values: seq<string>)
    ensures Normalize(values) == [] <==> values == []
  {
    NormalizeIsSorted(values);
    var n := Normalize(values);
    assert n != [] ==> n[0] in n;
    hide Normalize;
    assert values != [] ==> Code(values[0]) in Codes(values);
  }

  lemma DecidesNext(hist: seq<Delivery>, d: Delivery, i: nat)
    ensures Decides(hist + [d], i) <==>
      if hist == [] || d.event.kind != SnapshotUpserted then i == |hist| else Decides(hist, i)
  {
    var more := hist + [d];
    if i < |hist| {
      assert more[|hist|] == d && more[i] == hist[i];
      assert forall j :: i < j < |hist| ==> more[j] == hist[j];
    }
  }

  lemma AnyCancelsNext(hist: seq<Delivery>, d: Delivery)
    ensures AnyCancels(hist + [d]) <==> AnyCancels(hist) || Cancels(d)
  {
    var more := hist + [d];
    assert more[|hist|] == d;
    if i :| 0 <= i < |hist| && Cancels(hist[i]) {
      assert Cancels(more[i]);
    }
  }

  lemma StatusNext(hist: seq<Delivery>, current: Option<Link>, d: Delivery)
    requires if current.Some? then hist != [] && StatusFits(current.value.status, hist) else hist == []
    ensures StatusFits(NextStatus(current, d.event), hist + [d])
  {
    var more := hist + [d];
    AnyCancelsNext(hist, d);
    NoCodesIff(d.event.snapshot.missing);
    assert !AnyCancels([]);
    hide AnyCancels, Normalize;
    if current.Some? {
      StatusIsCancelledIff(current.value.status, hist);
    }
    forall i | 0 <= i < |more| && Decides(more, i) && !AnyCancels(more)
      ensures DecidedBy(NextStatus(current, d.event), more[i].event)
    {
      DecidesNext(hist, d, i);
      assert i < |hist| ==> more[i] == hist[i];
      hide Decides;
    }
  }

  lemma StatusIsCancelledIff(status: CaseStatus, hist: seq<Delivery>)
    requires hist != [] && StatusFits(status, hist)
    ensures status == Cancelled <==> AnyCancels(hist)
  {
  }

  lemma OpensNext(hist: seq<Delivery>, d: Delivery, i: nat)
    ensures i < |hist| ==> (Opens(hist + [d], i) <==> Opens(hist, i))
    ensures i == |hist| ==>
      (Opens(hist + [d], i) <==> d.shadow && d.event.kind == PreassessmentRequested && !AnyCancels(hist))
  {
    var more := hist + [d];
    assert forall j :: 0 <= j < |hist| ==> more[j] == hist[j];
  }

  lemma ConversationNext(hist: seq<Delivery>, current: Option<Link>, d: Delivery)
    requires if current.Some?
             then StatusFits(current.value.status, hist) && ConversationFits(current.value.conversation, hist)
             else hist == []
    requires StatusFits(NextStatus(current, d.event), hist + [d])
    ensures ConversationFits(NextLink(current, d.event, d.shadow, d.newConv).conversation, hist + [d])
  {
    AnyCancelsNext(hist, d);
    var more := hist + [d];
    forall i: nat | i <= |hist|
      ensures Opens(more, i) <==>
        if i < |hist| then Opens(hist, i)
        else d.shadow && d.event.kind == PreassessmentRequested && !AnyCancels(hist)
    {
      OpensNext(hist, d, i);
    }
    assert forall i :: 0 <= i < |hist| ==> more[i] == hist[i];
    assert more[|hist|] == d;
    hide NextStatus, Normalize, AnyCancels, Opens, Decides;
    if current.Some? && current.value.conversation.Some? {
      var i :| 0 <= i < |hist| && Opens(hist, i) && hist[i].newConv == current.value.conversation.value
               && forall j :: 0 <= j < i ==> !Opens(hist, j);
      assert Opens(more, i);
    } else if OpensConversation(current, d.event, d.shadow) {
      assert Opens(more, |hist|);
    }
  }

  lemma AcceptFits(s: Store, ds: seq<Delivery>, d: Delivery)
    requires var c := d.event.Case(); HistoryOk(s, ds, c)
    ensures var c := d.event.Case(); RowFits(Accept(s, d.event, d.shadow, d.newConv).links[c], AcceptedFor(ds, c) + [d])
  {
    var c := d.event.Case();
    var hist, current := AcceptedFor(ds, c), Current(s, c);
    StatusNext(hist, current, d);
    ConversationNext(hist, current, d);
    hide StatusFits, ConversationFits, NextStatus, OpensConversation, Normalize, AcceptedFor;
  }

  /** A delivery changes the row of a case only when it is accepted for it. */
  lemma RowAfter(s: Store, d: Delivery, c: CaseKey)
    ensures var t := Ingest(s, d.event, d.shadow, d.newConv).0;
      if AcceptsFor(s, d, c) then
        c == d.event.Case() && c in t.links && t.links[c] == Accept(s, d.event, d.shadow, d.newConv).links[c]
      else (c in t.links <==> c in s.links) && (c in s.links ==> t.links[c] == s.links[c])
  {
    hide NextLink, OpensConversation, RfiOf, Normalize;
  }

  lemma StepKeeps(s: Store, ds: seq<Delivery>, d: Delivery, c: CaseKey)
    requires s == Run(ds).0 && HistoryOk(s, ds, c)
    ensures HistoryOk(Ingest(s, d.event, d.shadow, d.newConv).0, ds + [d], c)
  {
    assert (ds + [d])[..|ds|] == ds;
    assert AcceptedFor(ds + [d], c) == AcceptedFor(ds, c) + (if AcceptsFor(s, d, c) then [d] else []);
    assert AcceptedFor(ds, c) + [] == AcceptedFor(ds, c);
    hide RowFits, AcceptedFor, Ingest, Accept;
    RowAfter(s, d, c);
    if AcceptsFor(s, d, c) {
      AcceptFits(s, ds, d);
    }
  }

  // ------------------------------------------------------------ every run

  /** After any deliveries, every row shows the last delivery accepted for its case; its status and its
      conversation are those that the accepted deliveries call for; and a case without accepted deliveries
      has no row. */
  lemma {:induction false} RowsFollowHistory(ds: seq<Delivery>, c: CaseKey)
    ensures HistoryOk(Run(ds).0, ds, c)
    decreases |ds|
  {
    if ds != [] {
      var n := |ds| - 1;
      RowsFollowHistory(ds[..n], c);
      StepKeeps(Run(ds[..n]).0, ds[..n], ds[n], c);
      assert ds[..n] + [ds[n]] == ds;
    }
  }

  lemma {:induction false} HistoryGrows(ds: seq<Delivery>, n: nat, c: CaseKey)
    requires n <= |ds|
    ensures AcceptedFor(ds[..n], c) <= AcceptedFor(ds, c)
    decreases |ds|
  {
    if n == |ds| {
      assert ds[..n] == ds;
    } else {
      var m := |ds| - 1;
      assert ds[..m][..n] == ds[..n];
      HistoryGrows(ds[..m], n, c);
    }
  }

  /** Once a cancellation was accepted for a case, the case stays cancelled, and no later delivery opens a
      conversation for it. */
  lemma CancelledForGood(ds: seq<Delivery>, n: nat, m: nat)
    requires n < m < |ds| && ds[n].event.kind == CaseCancelled && ds[m].event.Case() == ds[n].event.Case()
    requires AcceptsFor(Run(ds[..n]).0, ds[n], ds[n].event.Case())
    ensures var c := ds[n].event.Case(); var s, t := Run(ds[..m]).0, Run(ds[..m + 1]).0;
      && c in s.links && s.links[c].status == Cancelled && c in t.links && t.links[c].status == Cancelled
      && t.convs == s.convs && t.links[c].conversation == s.links[c].conversation
  {
    hide Ingest, AcceptsFor;
    CancelledAt(ds, n, m);
    CancelledAt(ds, n, m + 1);
    var s := Run(ds[..m]).0;
    assert ds[..m + 1][..m] == ds[..m];
    IngestMoves(s, ds[m], ds[n].event.Case());
    if ds[m].newConv !in s.convs {
      ConversationIsLinked(s, ds[m]);
    } else {
      NoNewConversation(s, ds[m]);
    }
  }

  lemma NoNewConversation(s: Store, d: Delivery)
    requires d.newConv in s.convs
    ensures Ingest(s, d.event, d.shadow, d.newConv).0.convs == s.convs
  {
    hide NextLink, OpensConversation, RfiOf, ReceiptOf;
  }

  lemma CancelledAt(ds: seq<Delivery>, n: nat, m: nat)
    requires n < m <= |ds| && ds[n].event.kind == CaseCancelled
    requires AcceptsFor(Run(ds[..n]).0, ds[n], ds[n].event.Case())
    ensures var c := ds[n].event.Case(); c in Run(ds[..m]).0.links && Run(ds[..m]).0.links[c].status == Cancelled
  {
    var c := ds[n].event.Case();
    var h, g := AcceptedFor(ds[..n + 1], c), AcceptedFor(ds[..m], c);
    assert ds[..n + 1][..n] == ds[..n] && ds[..m][..n + 1] == ds[..n + 1];
    assert h[|h| - 1] == ds[n];
    hide Run, AcceptedFor, AcceptsFor;
    HistoryGrows(ds[..m], n + 1, c);
    RowsFollowHistory(ds[..m], c);
    assert g[|h| - 1] == ds[n] && Cancels(g[|h| - 1]);
  }

  // ------------------------------------------------------------ answers

  predicate Receipts(s: Store, d: Delivery) {
    Ingest(s, d.event, d.shadow, d.newConv).1.Receipted?
  }

  /** The answers to the deliveries of one event id that were not refused, each with its event. */
  function ReceiptsFor(ds: seq<Delivery>, k: EventKey): seq<(Event, Receipt)> {
    if ds == [] then []
    else
      var n := |ds| - 1;
      var s, d := Run(ds[..n]).0, ds[n];
      ReceiptsFor(ds[..n], k)
      + (if d.event.Key() == k && Receipts(s, d)
         then [(d.event, Ingest(s, d.event, d.shadow, d.newConv).1.receipt)] else [])
  }

  /** The inbox keeps the first answer of every event id. */
  predicate InboxFits(s: Store, answers: seq<(Event, Receipt)>, k: EventKey) {
    if answers == [] then k !in s.inbox else k in s.inbox && s.inbox[k] == Entry(answers[0].0, answers[0].1)
  }

  lemma InboxAfter(s: Store, d: Delivery, k: EventKey)
    ensures var (t, r) := Ingest(s, d.event, d.shadow, d.newConv);
      if d.event.Key() == k && r.Receipted? && k !in s.inbox then k in t.inbox && t.inbox[k] == Entry(d.event, r.receipt)
      else (k in t.inbox <==> k in s.inbox) && (k in s.inbox ==> t.inbox[k] == s.inbox[k])
  {
    hide NextLink, OpensConversation, RfiOf, Normalize;
  }

  lemma {:induction false} InboxFollowsHistory(ds: seq<Delivery>, k: EventKey)
    ensures InboxFits(Run(ds).0, ReceiptsFor(ds, k), k)
    decreases |ds|
  {
    if ds != [] {
      var n := |ds| - 1;
      InboxFollowsHistory(ds[..n], k);
      hide Ingest;
      InboxAfter(Run(ds[..n]).0, ds[n], k);
    }
  }

  /** Whether an accepted event asks for information: not a cancellation, with missing codes that differ from
      those of the event accepted before it. */
  predicate AsksFor(hist: seq<Delivery>, e: Event) {
    && e.kind != CaseCancelled && e.snapshot.missing != []
    && (hist != [] ==> Codes(hist[|hist| - 1].event.snapshot.missing) != Codes(e.snapshot.missing))
  }

  /** The answer to a delivery, read off the deliveries before it. */
  ghost predicate AnswerFits(r: Result, e: Event, answers: seq<(Event, Receipt)>, hist: seq<Delivery>) {
    if answers != [] then
      if answers[0].0 != e then r == IdempotencyConflict
      else r == Receipted(answers[0].1.(outcome := Duplicate), None)
    else if hist == [] || hist[|hist| - 1].event.version < e.version then
      && r.Receipted? && r.receipt.outcome == Accepted
      && (r.rfi.Some? <==> AsksFor(hist, e))
      && (r.rfi.Some? ==> r.rfi.value.key == e.Case() && Ascending(r.rfi.value.missing)
                          && forall x :: x in r.rfi.value.missing <==> x in Codes(e.snapshot.missing))
    else if e.version < hist[|hist| - 1].event.version then
      r.Receipted? && r.receipt.outcome == StaleIgnored && r.rfi.None?
    else if hist[|hist| - 1].event.Hashed() != e.Hashed() then r == VersionConflict
    else r.Receipted? && r.receipt.outcome == Duplicate && r.rfi.None?
  }

  /** A new answer names the delivered event, and shows the status and conversation of the row it leaves. */
  predicate ReceiptFits(r: Result, t: Store, d: Delivery) {
    var c := d.event.Case();
    r.Receipted? ==>
      && c in t.links
      && r.receipt.eventId == d.event.id && r.receipt.key == c && r.receipt.version == d.event.version
      && r.receipt.status == t.links[c].status && r.receipt.conversation == t.links[c].conversation
  }

  lemma RfiIff(current: Option<Link>, e: Event, hist: seq<Delivery>)
    requires current.Some? <==> hist != []
    requires current.Some? ==> current.value.missing == Normalize(hist[|hist| - 1].event.snapshot.missing)
    ensures var rfi := RfiOf(current, e);
      && (rfi.Some? <==> AsksFor(hist, e))
      && (rfi.Some? ==> rfi.value.key == e.Case() && Ascending(rfi.value.missing)
                        && forall x :: x in rfi.value.missing <==> x in Codes(e.snapshot.missing))
  {
    NoCodesIff(e.snapshot.missing);
    NormalizeIsSorted(e.snapshot.missing);
    if hist != [] {
      var before := hist[|hist| - 1].event.snapshot.missing;
      NormalizeIsIdempotent(before);
      SameCodesIff(e.snapshot.missing, before);
    }
    hide Normalize, Codes, Ascending;
  }

  /** Every answer follows from the deliveries before it: the first answer of the event id, the last delivery
      accepted for the case and nothing else. */
  lemma AnswersFollowHistory(ds: seq<Delivery>, d: Delivery)
    ensures var (t, r) := Ingest(Run(ds).0, d.event, d.shadow, d.newConv);
      && AnswerFits(r, d.event, ReceiptsFor(ds, d.event.Key()), AcceptedFor(ds, d.event.Case()))
      && (ReceiptsFor(ds, d.event.Key()) == [] ==> ReceiptFits(r, t, d))
  {
    var s, hist := Run(ds).0, AcceptedFor(ds, d.event.Case());
    InboxFollowsHistory(ds, d.event.Key());
    RowsFollowHistory(ds, d.event.Case());
    hide Run, StatusFits, ConversationFits, ReceiptsFor, AcceptedFor, Ascending, Codes;
    assert hist != [] ==> s.links[d.event.Case()].missing == Normalize(hist[|hist| - 1].event.snapshot.missing);
    RfiIff(Current(s, d.event.Case()), d.event, hist);
    hide Normalize, RfiOf, OpensConversation, NextStatus, AsksFor;
  }
}

/**
 The mismatch list of backend/app/orch/store_shadow.py: keyset pages over the shadow ledger in descending
 (decided_at, approval_id) order.
 */
module ShadowPages {
  import opened Wrappers
  import opened Cursor

  /** One row of `shadow_reviews` of the tenant; `agrees` is its `match` column. */
  datatype Row = Row(id: nat, at: int, lane: Option<string>, agrees: Option<bool>) {
    function Key(): Anchor {
      Anchor(at, id)
    }
  }

  /** The row order of the list: later decisions first, then larger ids. */
  predicate Above(a: Anchor, b: Anchor) {
    a.at > b.at || (a.at == b.at && a.id > b.id)
  }

  predicate Passes(f: Filters, r: Row) {
    && r.agrees == Some(false)
    && (f.fromAt.Some? ==> r.at >= f.fromAt.value)
    && (f.toAt.Some? ==> r.at < f.toAt.value)
    && (f.lane.Some? ==> r.lane == f.lane)
  }

  /** The WHERE clause. */
  predicate Wanted(f: Filters, after: Option<Anchor>, r: Row) {
    Passes(f, r) && (after.Some? ==> Above(after.value, r.Key()))
  }

  // ------------------------------------------------------------ SELECT ... ORDER BY

  function Insert(r: Row, s: seq<Row>): seq<Row> {
    if s == [] || Above(r.Key(), s[0].Key()) then [r] + s else [s[0]] + Insert(r, s[1..])
  }

  function Selected(ledger: seq<Row>, f: Filters, after: Option<Anchor>): seq<Row> {
    if ledger == [] then []
    else
      var n := |ledger| - 1;
      var rest := Selected(ledger[..n], f, after);
      if Wanted(f, after, ledger[n]) then Insert(ledger[n], rest) else rest
  }

  ghost predicate Descending(s: seq<Row>) {
    forall i, j :: 0 <= i < j < |s| ==> Above(s[i].Key(), s[j].Key())
  }

  /** `approval_id` is unique. */
  ghost predicate UniqueIds(ledger: seq<Row>) {
    forall i, j :: 0 <= i < j < |ledger| ==> ledger[i].id != ledger[j].id
  }

  lemma {:induction false} InsertHolds(r: Row, s: seq<Row>)
    ensures forall x :: x in Insert(r, s) <==> x == r || x in s
    ensures Descending(s) && (forall x :: x in s ==> x.id != r.id) ==> Descending(Insert(r, s))
  {
    if s != [] && !Above(r.Key(), s[0].Key()) {
      InsertHolds(r, s[1..]);
      var t := Insert(r, s[1..]);
      if Descending(s) && (forall x :: x in s ==> x.id != r.id) {
        forall x | x in t ensures Above(s[0].Key(), x.Key()) {
          if x != r {
            var i :| 0 <= i < |s[1..]| && s[1..][i] == x;
            assert x == s[i + 1];
          }
        }
      }
    } else if s != [] && Descending(s) {
      forall x | x in s ensures Above(r.Key(), x.Key()) {
        var i :| 0 <= i < |s| && s[i] == x;
      }
    }
  }

  /** The query returns exactly the wanted rows, in strictly descending order. */
  lemma {:induction false} SelectedHolds(ledger: seq<Row>, f: Filters, after: Option<Anchor>)
    requires UniqueIds(ledger)
    ensures forall x :: x in Selected(ledger, f, after) <==> x in ledger && Wanted(f, after, x)
    ensures Descending(Selected(ledger, f, after))
  {
    hide Wanted, Insert, Descending;
    if ledger == [] {
      assert Descending([]) by { EmptyDescends(); }
    } else {
      var n := |ledger| - 1;
      SelectedHolds(ledger[..n], f, after);
      InsertHolds(ledger[n], Selected(ledger[..n], f, after));
      assert ledger == ledger[..n] + [ledger[n]];
      hide UniqueIds;
      IdIsNew(ledger, n);
    }
  }

  lemma EmptyDescends()
    ensures Descending([])
  {
  }

  lemma IdIsNew(ledger: seq<Row>, n: nat)
    requires UniqueIds(ledger) && n < |ledger|
    ensures forall x :: x in ledger[..n] ==> x.id != ledger[n].id
  {
  }

  /** A strictly descending list is determined by its members. */
  lemma {:induction false} DescendingIsUnique(s: seq<Row>, t: seq<Row>)
    requires Descending(s) && Descending(t) && forall x :: x in s <==> x in t
    ensures s == t
  {
    assert s != [] ==> s[0] in t;
    assert t != [] ==> t[0] in s;
    if s != [] && t != [] {
      var i :| 0 <= i < |t| && t[i] == s[0];
      var j :| 0 <= j < |s| && s[j] == t[0];
      assert s[0] == t[0];
      forall x ensures x in s[1..] <==> x in t[1..] {
        TailWithout(s, x);
        TailWithout(t, x);
      }
      DescendingIsUnique(s[1..], t[1..]);
    }
  }

  lemma TailWithout(s: seq<Row>, x: Row)
    requires Descending(s) && s != []
    ensures x in s[1..] <==> x in s && x != s[0]
  {
    if x in s && x != s[0] {
      var i :| 0 <= i < |s| && s[i] == x;
      assert s[1..][i - 1] == x;
    }
  }

  // ------------------------------------------------------------ pages

  datatype Page = Page(items: seq<Row>, next: Option<Anchor>)

  function First(s: seq<Row>, n: nat): seq<Row> {
    if |s| <= n then s else s[..n]
  }

  /** `_mismatches_sync` between its cursor decoding and its cursor encoding: one row more than the limit
      is fetched to see whether there is a next page. */
  function PageOf(ledger: seq<Row>, f: Filters, limit: nat, after: Option<Anchor>): Page {
    var rows := First(Selected(ledger, f, after), limit + 1);
    var items := First(rows, limit);
    Page(items, if |rows| > limit && items != [] then Some(items[|items| - 1].Key()) else None)
  }

  datatype Answer = CursorError | Answered(items: seq<Row>, nextCursor: Option<string>)

  /** `_mismatches_sync`. */
  method Mismatches(c: Codec, ledger: seq<Row>, f: Filters, limit: nat, cursor: Option<string>) returns (a: Answer)
    ensures cursor.Some? && DecodeCursor(c, cursor.value, f).None? <==> a.CursorError?
    ensures a.Answered? ==>
      var after := if cursor.Some? then DecodeCursor(c, cursor.value, f) else None;
      var page := PageOf(ledger, f, limit, after);
      && a.items == page.items
      && a.nextCursor == if page.next.Some? then Some(EncodeCursor(c, f, page.next.value)) else None
  {
    var after := None;
    if cursor.Some? {
      after := DecodeCursor(c, cursor.value, f);
      if after.None? {
        return CursorError;
      }
    }
    var rows := First(Selected(ledger, f, after), limit + 1);
    var hasMore := |rows| > limit;
    var items := First(rows, limit);
    var next := None;
    if hasMore && items != [] {
      next := Some(EncodeCursor(c, f, items[|items| - 1].Key()));
    }
    return Answered(items, next);
  }

  /** What is left from a position on. */
  function Left(ledger: seq<Row>, f: Filters, after: Option<Anchor>): nat {
    |Selected(ledger, f, after)|
  }

  /** A page is the start of the list, and the next page starts right behind it. */
  lemma PageSplits(ledger: seq<Row>, f: Filters, limit: nat, after: Option<Anchor>)
    requires UniqueIds(ledger) && limit >= 1
    ensures var p := PageOf(ledger, f, limit, after); var all := Selected(ledger, f, after);
      && (p.next.None? ==> p.items == all)
      && (p.next.Some? ==>
            && 0 < |p.items| < |all| && p.items == all[..|p.items|] && p.next == Some(p.items[|p.items| - 1].Key())
            && Selected(ledger, f, p.next) == all[|p.items|..])
  {
    var p := PageOf(ledger, f, limit, after);
    var all := Selected(ledger, f, after);
    hide Selected, Wanted, Descending, UniqueIds;
    if p.next.Some? {
      assert p.items == all[..limit];
      SelectedHolds(ledger, f, after);
      SelectedHolds(ledger, f, p.next);
      RestIsBelow(all, limit, f, after);
      DescendingIsUnique(Selected(ledger, f, p.next), all[limit..]);
    }
  }

  lemma RestIsBelow(all: seq<Row>, n: nat, f: Filters, after: Option<Anchor>)
    requires Descending(all) && 0 < n < |all| && forall x :: x in all ==> Wanted(f, after, x)
    ensures Descending(all[n..])
    ensures forall x :: x in all[n..] <==> x in all && Above(all[n - 1].Key(), x.Key())
    ensures forall x :: Wanted(f, Some(all[n - 1].Key()), x) ==> Wanted(f, after, x)
    ensures forall x :: x in all ==> (Wanted(f, Some(all[n - 1].Key()), x) <==> Above(all[n - 1].Key(), x.Key()))
  {
    assert Wanted(f, after, all[n - 1]);
    forall x ensures x in all[n..] <==> x in all && Above(all[n - 1].Key(), x.Key()) {
      if x in all && Above(all[n - 1].Key(), x.Key()) {
        var i :| 0 <= i < |all| && all[i] == x;
        assert i >= n;
        assert all[n..][i - n] == x;
      }
    }
  }

  /** Following the next cursor from a position until there is none. */
  function Collected(ledger: seq<Row>, f: Filters, limit: nat, after: Option<Anchor>): seq<Row>
    requires UniqueIds(ledger) && limit >= 1
    decreases Left(ledger, f, after)
  {
    var p := PageOf(ledger, f, limit, after);
    PageSplits(ledger, f, limit, after);
    if p.next.None? then p.items else p.items + Collected(ledger, f, limit, p.next)
  }

  /** Completeness: the pages together are the whole list, with no row skipped or repeated, for every limit
      of at least one. */
  lemma {:induction false} PagesAreComplete(ledger: seq<Row>, f: Filters, limit: nat, after: Option<Anchor>)
    requires UniqueIds(ledger) && limit >= 1
    ensures Collected(ledger, f, limit, after) == Selected(ledger, f, after)
    decreases Left(ledger, f, after)
  {
    var p := PageOf(ledger, f, limit, after);
    PageSplits(ledger, f, limit, after);
    hide PageOf, Selected, UniqueIds;
    if p.next.Some? {
      PagesAreComplete(ledger, f, limit, p.next);
    }
  }

  /** With a limit of zero nothing is ever listed. */
  lemma LimitZeroListsNothing(ledger: seq<Row>, f: Filters, after: Option<Anchor>)
    ensures PageOf(ledger, f, 0, after) == Page([], None)
  {
  }

  // ------------------------------------------------------------ pages by signed cursors

  /** The JSON text of the cursors that the rows of the list can give is read back. */
  ghost predicate Readable(c: Codec, ledger: seq<Row>, f: Filters) {
    forall r :: r in ledger && Passes(f, r) ==> c.load(c.dump(Payload(f, r.Key()))) == Some(Payload(f, r.Key()))
  }

  predicate Short(c: Codec, f: Filters, r: Row) {
    |EncodeCursor(c, f, r.Key())| <= MAX_CURSOR
  }

  /** The cursors a client is given while it reads the list page by page are not too long. */
  predicate ShortCursors(c: Codec, f: Filters, limit: nat, list: seq<Row>)
    requires limit >= 1
  {
    |list| <= limit || (Short(c, f, list[limit - 1]) && ShortCursors(c, f, limit, list[limit..]))
  }

  /** The position a client is at. */
  function Position(c: Codec, f: Filters, cursor: Option<string>): Option<Anchor> {
    if cursor.Some? then DecodeCursor(c, cursor.value, f) else None
  }

  /** A cursor that is made for a page is read back exactly when it is short. */
  lemma CursorIsReadIff(c: Codec, ledger: seq<Row>, f: Filters, limit: nat, after: Option<Anchor>)
    requires UniqueIds(ledger) && limit >= 1 && Readable(c, ledger, f) && PageOf(ledger, f, limit, after).next.Some?
    ensures var a := PageOf(ledger, f, limit, after).next.value; var all := Selected(ledger, f, after);
      && |all| > limit && all[limit - 1].Key() == a
      && DecodeCursor(c, EncodeCursor(c, f, a), f) == (if Short(c, f, all[limit - 1]) then Some(a) else None)
  {
    var all := Selected(ledger, f, after);
    var r := all[limit - 1];
    SelectedHolds(ledger, f, after);
    assert r in all && Passes(f, r);
    hide Selected, UniqueIds;
    CursorReadBack(c, f, r.Key());
  }

  lemma CursorReadBack(c: Codec, f: Filters, a: Anchor)
    requires c.load(c.dump(Payload(f, a))) == Some(Payload(f, a))
    ensures DecodeCursor(c, EncodeCursor(c, f, a), f)
         == if |EncodeCursor(c, f, a)| <= MAX_CURSOR then Some(a) else None
  {
    CursorRoundTrip(c, f, a, f);
    hide EncodeCursor, DecodeCursor;
  }

  /** What a client collects that sends back every next cursor; None when one is refused. */
  ghost function Followed(c: Codec, ledger: seq<Row>, f: Filters, limit: nat, cursor: Option<string>): Option<seq<Row>>
    requires UniqueIds(ledger) && limit >= 1 && Readable(c, ledger, f)
    decreases if cursor.Some? && Position(c, f, cursor).None? then 0 else 1 + Left(ledger, f, Position(c, f, cursor))
  {
    var after := Position(c, f, cursor);
    if cursor.Some? && after.None? then None
    else
      var p := PageOf(ledger, f, limit, after);
      PageSplits(ledger, f, limit, after);
      if p.next.None? then Some(p.items)
      else
        CursorIsReadIff(c, ledger, f, limit, after);
        var rest := Followed(c, ledger, f, limit, Some(EncodeCursor(c, f, p.next.value)));
        if rest.None? then None else Some(p.items + rest.value)
  }

  /** One page of the client, then the rest. */
  lemma FollowsOn(c: Codec, ledger: seq<Row>, f: Filters, limit: nat, cursor: Option<string>)
    requires UniqueIds(ledger) && limit >= 1 && Readable(c, ledger, f)
    requires cursor.Some? ==> Position(c, f, cursor).Some?
    ensures var p := PageOf(ledger, f, limit, Position(c, f, cursor));
      Followed(c, ledger, f, limit, cursor)
      == if p.next.None? then Some(p.items)
         else
           var rest := Followed(c, ledger, f, limit, Some(EncodeCursor(c, f, p.next.value)));
           if rest.None? then None else Some(p.items + rest.value)
  {
    hide Selected, PageOf, Readable, DecodeCursor, EncodeCursor, UniqueIds;
  }

  lemma RefusedEnds(c: Codec, ledger: seq<Row>, f: Filters, limit: nat, cursor: Option<string>)
    requires UniqueIds(ledger) && limit >= 1 && Readable(c, ledger, f)
    requires cursor.Some? && Position(c, f, cursor).None?
    ensures Followed(c, ledger, f, limit, cursor).None?
  {
    hide Selected, PageOf, Readable, DecodeCursor, EncodeCursor, UniqueIds;
  }

  lemma {:induction false} FollowedFrom(c: Codec, ledger: seq<Row>, f: Filters, limit: nat, cursor: Option<string>)
    requires UniqueIds(ledger) && limit >= 1 && Readable(c, ledger, f)
    requires cursor.Some? ==> Position(c, f, cursor).Some?
    ensures var all := Selected(ledger, f, Position(c, f, cursor));
      Followed(c, ledger, f, limit, cursor) == if ShortCursors(c, f, limit, all) then Some(all) else None
    decreases Left(ledger, f, Position(c, f, cursor))
  {
    hide Selected, PageOf, Readable, DecodeCursor, EncodeCursor, UniqueIds, Followed, Short;
    var after := Position(c, f, cursor);
    var p := PageOf(ledger, f, limit, after);
    PageSplits(ledger, f, limit, after);
    FollowsOn(c, ledger, f, limit, cursor);
    PageSize(ledger, f, limit, after);
    if p.next.Some? {
      CursorIsReadIff(c, ledger, f, limit, after);
      var all := Selected(ledger, f, after);
      var next := Some(EncodeCursor(c, f, p.next.value));
      assert all == all[..limit] + all[limit..];
      if Short(c, f, all[limit - 1]) {
        FollowedFrom(c, ledger, f, limit, next);
      } else {
        RefusedEnds(c, ledger, f, limit, next);
      }
    }
  }

  lemma PageSize(ledger: seq<Row>, f: Filters, limit: nat, after: Option<Anchor>)
    ensures var p := PageOf(ledger, f, limit, after);
      && (p.next.Some? ==> |p.items| == limit)
      && (p.next.None? && limit >= 1 ==> |Selected(ledger, f, after)| <= limit)
  {
    hide Selected;
  }

  /** A client that sends back every next cursor collects the whole list when the cursors it is given are
      short, and is refused otherwise. */
  lemma CursorsAreCompleteIff(c: Codec, ledger: seq<Row>, f: Filters, limit: nat)
    requires UniqueIds(ledger) && limit >= 1 && Readable(c, ledger, f)
    ensures var all := Selected(ledger, f, None);
      Followed(c, ledger, f, limit, None) == if ShortCursors(c, f, limit, all) then Some(all) else None
  {
    FollowedFrom(c, ledger, f, limit, None);
  }

  lemma {:induction false} AllShort(c: Codec, f: Filters, limit: nat, list: seq<Row>)
    requires limit >= 1 && forall r :: r in list ==> Short(c, f, r)
    ensures ShortCursors(c, f, limit, list)
  {
    hide Short;
    if |list| > limit {
      forall r | r in list[limit..] ensures Short(c, f, r) {
        assert r in list;
      }
      AllShort(c, f, limit, list[limit..]);
    }
  }

  /** In particular the list is complete when every row of it has a short cursor. */
  lemma CursorsAreComplete(c: Codec, ledger: seq<Row>, f: Filters, limit: nat)
    requires UniqueIds(ledger) && limit >= 1 && Readable(c, ledger, f)
    requires forall r :: r in ledger && Passes(f, r) ==> Short(c, f, r)
    ensures Followed(c, ledger, f, limit, None) == Some(Selected(ledger, f, None))
  {
    hide Short, Passes, Readable, Followed;
    SelectedHolds(ledger, f, None);
    PassingRows(ledger, f);
    AllShort(c, f, limit, Selected(ledger, f, None));
    CursorsAreCompleteIff(c, ledger, f, limit);
  }

  lemma PassingRows(ledger: seq<Row>, f: Filters)
    requires UniqueIds(ledger)
    ensures forall r :: r in Selected(ledger, f, None) ==> r in ledger && Passes(f, r)
  {
    SelectedHolds(ledger, f, None);
  }

  // A codec that reads back and keeps short the cursors of any ledger of up to three thousand rows.

  /** Index of the first row with a key, or the length. */
  function PlaceOf(ledger: seq<Row>, a: Anchor): (i: nat)
    ensures i <= |ledger|
    ensures i < |ledger| ==> ledger[i].Key() == a
    ensures i == |ledger| ==> forall r :: r in ledger ==> r.Key() != a
  {
    if ledger == [] || ledger[0].Key() == a then 0 else 1 + PlaceOf(ledger[1..], a)
  }

  function CodecFor(ledger: seq<Row>, f: Filters): Codec {
    Codec((p: Payload) => seq(PlaceOf(ledger, p.after), i => 0),
          (b: seq<Byte>) => if |b| < |ledger| then Some(Payload(f, ledger[|b|].Key())) else None,
          (s: string) => [])
  }

  /** The conditions of the list theorem can be met: for every ledger and filter there is a codec. */
  lemma SomeCodecFits(ledger: seq<Row>, f: Filters)
    requires |ledger| <= 3000
    ensures Readable(CodecFor(ledger, f), ledger, f)
    ensures forall r :: r in ledger && Passes(f, r) ==> Short(CodecFor(ledger, f), f, r)
  {
    var c := CodecFor(ledger, f);
    hide Passes;
    forall r | r in ledger && Passes(f, r)
      ensures c.load(c.dump(Payload(f, r.Key()))) == Some(Payload(f, r.Key())) && Short(c, f, r)
    {
      var i := PlaceOf(ledger, r.Key());
      assert i < |ledger|;
      var raw: seq<Byte> := seq(i, j => 0);
      assert c.dump(Payload(f, r.Key())) == raw && |raw| == i;
      EncodedLength(raw);
      EncodedLength([]);
    }
  }

  // ------------------------------------------------------------ pages over a growing ledger

  /** The ledger after every batch was appended. */
  function Grown(ledger: seq<Row>, growth: seq<seq<Row>>): seq<Row>
    decreases |growth|
  {
    if growth == [] then ledger else Grown(ledger + growth[0], growth[1..])
  }

  lemma {:induction false} GrownStarts(ledger: seq<Row>, growth: seq<seq<Row>>)
    ensures ledger <= Grown(ledger, growth)
    decreases |growth|
  {
    if growth != [] {
      GrownStarts(ledger + growth[0], growth[1..]);
    }
  }

  lemma StartIsUnique(ledger: seq<Row>, growth: seq<seq<Row>>)
    requires UniqueIds(Grown(ledger, growth))
    ensures UniqueIds(ledger)
  {
    GrownStarts(ledger, growth);
    forall i, j | 0 <= i < j < |ledger| ensures ledger[i].id != ledger[j].id {
      assert ledger[i] == Grown(ledger, growth)[i] && ledger[j] == Grown(ledger, growth)[j];
    }
  }

  /** Following the cursors while a batch of rows is appended after each page. */
  function CollectedGrowing(ledger: seq<Row>, growth: seq<seq<Row>>, f: Filters, limit: nat, after: Option<Anchor>): seq<Row>
    requires UniqueIds(Grown(ledger, growth)) && limit >= 1
    decreases |growth|
  {
    var p := PageOf(ledger, f, limit, after);
    if growth == [] then Collected(ledger, f, limit, after)
    else if p.next.None? then p.items
    else p.items + CollectedGrowing(ledger + growth[0], growth[1..], f, limit, p.next)
  }

  /** What any way of following the cursors must give. */
  ghost predicate Covers(r: seq<Row>, ledger: seq<Row>, f: Filters, after: Option<Anchor>) {
    && Descending(r)
    && (forall x :: x in r ==> Wanted(f, after, x))
    && (forall x :: x in ledger && Wanted(f, after, x) ==> x in r)
  }

  lemma SelectedCovers(ledger: seq<Row>, f: Filters, after: Option<Anchor>)
    requires UniqueIds(ledger)
    ensures Covers(Selected(ledger, f, after), ledger, f, after)
  {
    hide Descending, Wanted, UniqueIds;
    SelectedHolds(ledger, f, after);
  }

  lemma JoinCovers(ledger: seq<Row>, more: seq<Row>, f: Filters, after: Option<Anchor>,
                   all: seq<Row>, n: nat, rest: seq<Row>)
    requires Covers(all, ledger, f, after) && 0 < n < |all| && Covers(rest, ledger + more, f, Some(all[n - 1].Key()))
    ensures Covers(all[..n] + rest, ledger, f, after)
  {
    RestIsBelow(all, n, f, after);
    var joined := all[..n] + rest;
    forall x | x in ledger && Wanted(f, after, x) ensures x in joined {
      if x !in all[..n] {
        assert x in all[n..] by { InOneHalf(all, n, x); }
        assert x in ledger + more;
      }
    }
    forall x | x in joined ensures Wanted(f, after, x) {
      if x in all[..n] {
        assert x in all;
      }
    }
    JoinDescends(all, n, rest);
  }

  lemma InOneHalf(s: seq<Row>, n: nat, x: Row)
    requires n <= |s| && x in s && x !in s[..n]
    ensures x in s[n..]
  {
    assert s == s[..n] + s[n..];
  }

  lemma JoinDescends(all: seq<Row>, n: nat, rest: seq<Row>)
    requires Descending(all) && 0 < n <= |all| && Descending(rest)
    requires forall x :: x in rest ==> Above(all[n - 1].Key(), x.Key())
    ensures Descending(all[..n] + rest)
  {
    var joined := all[..n] + rest;
    forall i, j | 0 <= i < j < |joined| ensures Above(joined[i].Key(), joined[j].Key()) {
      if i < n <= j {
        assert joined[j] in rest;
        assert i < n - 1 ==> Above(all[i].Key(), all[n - 1].Key());
      }
    }
  }

  lemma {:induction false} GrowingCovers(ledger: seq<Row>, growth: seq<seq<Row>>, f: Filters, limit: nat,
                                         after: Option<Anchor>)
    requires UniqueIds(Grown(ledger, growth)) && limit >= 1
    ensures Covers(CollectedGrowing(ledger, growth, f, limit, after), ledger, f, after)
    decreases |growth|
  {
    hide UniqueIds, Covers, PageOf, Selected, Collected;
    StartIsUnique(ledger, growth);
    SelectedCovers(ledger, f, after);
    if growth == [] {
      PagesAreComplete(ledger, f, limit, after);
    } else {
      var p := PageOf(ledger, f, limit, after);
      PageSplits(ledger, f, limit, after);
      if p.next.Some? {
        GrowingCovers(ledger + growth[0], growth[1..], f, limit, p.next);
        JoinCovers(ledger, growth[0], f, after, Selected(ledger, f, after), |p.items|,
                   CollectedGrowing(ledger + growth[0], growth[1..], f, limit, p.next));
      }
    }
  }

  /** The rows of `s` that are in the ledger. */
  function Kept(s: seq<Row>, ledger: seq<Row>): seq<Row> {
    if s == [] then [] else (if s[0] in ledger then [s[0]] else []) + Kept(s[1..], ledger)
  }

  lemma {:induction false} KeptHolds(s: seq<Row>, ledger: seq<Row>)
    requires Descending(s)
    ensures forall x :: x in Kept(s, ledger) <==> x in s && x in ledger
    ensures Descending(Kept(s, ledger))
  {
    if s != [] {
      KeptHolds(s[1..], ledger);
      var rest := Kept(s[1..], ledger);
      forall x | x in rest ensures Above(s[0].Key(), x.Key()) {
        var i :| 0 <= i < |s[1..]| && s[1..][i] == x;
        assert x == s[i + 1];
      }
    }
  }

  /** Whatever is appended between pages, the rows of the first ledger are listed completely, once each and
      in order. */
  lemma GrowthSkipsNothing(ledger: seq<Row>, growth: seq<seq<Row>>, f: Filters, limit: nat)
    requires UniqueIds(Grown(ledger, growth)) && limit >= 1
    ensures Kept(CollectedGrowing(ledger, growth, f, limit, None), ledger) == Selected(ledger, f, None)
  {
    var all := CollectedGrowing(ledger, growth, f, limit, None);
    GrowingCovers(ledger, growth, f, limit, None);
    StartIsUnique(ledger, growth);
    SelectedHolds(ledger, f, None);
    KeptHolds(all, ledger);
    hide CollectedGrowing, Selected, Kept, Wanted;
    DescendingIsUnique(Kept(all, ledger), Selected(ledger, f, None));
  }
}

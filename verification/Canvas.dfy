/**
 The canvas index of frontend/src/workspaceUtil.ts: building it from all cards, and upserting the cards
 one by one. The rank of a card stands for its ts text under localeCompare.
 */
module Canvas {
  import opened Wrappers

  datatype Card = Card(id: string, task: Option<string>, kind: string, rank: int, body: string)

  function CanvasKey(c: Card): string {
    (if c.task.Some? then c.task.value else "null") + "::" + c.kind
  }

  // ------------------------------------------------------------ sorting by ts

  /** Behind every card that is not later: the sort is stable. */
  function Insert(c: Card, s: seq<Card>): seq<Card> {
    if s == [] || s[|s| - 1].rank <= c.rank then s + [c] else Insert(c, s[..|s| - 1]) + [s[|s| - 1]]
  }

  function ByTs(s: seq<Card>): seq<Card> {
    if s == [] then [] else Insert(s[|s| - 1], ByTs(s[..|s| - 1]))
  }

  ghost predicate InOrder(s: seq<Card>) {
    forall i, j :: 0 <= i < j < |s| ==> s[i].rank <= s[j].rank
  }

  ghost predicate OnePerKey(s: seq<Card>) {
    forall i, j :: 0 <= i < j < |s| ==> CanvasKey(s[i]) != CanvasKey(s[j])
  }

  lemma {:induction false} InsertMembers(c: Card, s: seq<Card>)
    ensures forall x :: x in Insert(c, s) <==> x == c || x in s
  {
    if s != [] && s[|s| - 1].rank > c.rank {
      InsertMembers(c, s[..|s| - 1]);
      assert s == s[..|s| - 1] + [s[|s| - 1]];
    }
  }

  lemma {:induction false} InsertInOrder(c: Card, s: seq<Card>)
    requires InOrder(s)
    ensures InOrder(Insert(c, s))
  {
    if s != [] && s[|s| - 1].rank > c.rank {
      var t := Insert(c, s[..|s| - 1]);
      InsertInOrder(c, s[..|s| - 1]);
      InsertMembers(c, s[..|s| - 1]);
      hide Insert;
      forall i | 0 <= i < |t| ensures t[i].rank <= s[|s| - 1].rank {
        assert t[i] in t;
      }
    }
  }

  lemma {:induction false} InsertOnePerKey(c: Card, s: seq<Card>)
    requires OnePerKey(s) && forall x :: x in s ==> CanvasKey(x) != CanvasKey(c)
    ensures OnePerKey(Insert(c, s))
  {
    hide CanvasKey;
    if s != [] && s[|s| - 1].rank > c.rank {
      var t := Insert(c, s[..|s| - 1]);
      InsertOnePerKey(c, s[..|s| - 1]);
      InsertMembers(c, s[..|s| - 1]);
      forall i | 0 <= i < |t| ensures CanvasKey(t[i]) != CanvasKey(s[|s| - 1]) {
        assert t[i] in t;
      }
    }
  }

  lemma {:induction false} ByTsHolds(s: seq<Card>)
    ensures forall x :: x in ByTs(s) <==> x in s
    ensures InOrder(ByTs(s))
    ensures OnePerKey(s) ==> OnePerKey(ByTs(s))
  {
    hide Insert, CanvasKey;
    if s != [] {
      ByTsHolds(s[..|s| - 1]);
      var rest := ByTs(s[..|s| - 1]);
      InsertMembers(s[|s| - 1], rest);
      InsertInOrder(s[|s| - 1], rest);
      assert s == s[..|s| - 1] + [s[|s| - 1]];
      if OnePerKey(s) {
        InsertOnePerKey(s[|s| - 1], rest);
      }
    }
  }

  // ------------------------------------------------------------ buildCanvas

  /** Map.set: the value is replaced in place, a new key goes to the end. */
  function Put(s: seq<Card>, c: Card): seq<Card> {
    if s == [] then [c]
    else if CanvasKey(s[0]) == CanvasKey(c) then [c] + s[1..]
    else [s[0]] + Put(s[1..], c)
  }

  function Filled(cards: seq<Card>): seq<Card> {
    if cards == [] then [] else Put(Filled(cards[..|cards| - 1]), cards[|cards| - 1])
  }

  method BuildCanvas(cards: seq<Card>) returns (canvas: seq<Card>)
    ensures canvas == Filled(ByTs(cards))
  {
    var sorted := ByTs(cards);
    canvas := [];
    for i := 0 to |sorted|
      invariant canvas == Filled(sorted[..i])
    {
      assert sorted[..i + 1][..i] == sorted[..i];
      canvas := Put(canvas, sorted[i]);
    }
    assert sorted[..|sorted|] == sorted;
  }

  // ------------------------------------------------------------ upsertCardInto

  predicate Replaces(card: Card, c: Card) {
    c.id == card.id || CanvasKey(c) == CanvasKey(card)
  }

  /** The cards that stay. */
  function Others(prev: seq<Card>, card: Card): seq<Card> {
    if prev == [] then []
    else
      var n := |prev| - 1;
      Others(prev[..n], card) + (if Replaces(card, prev[n]) then [] else [prev[n]])
  }

  method UpsertCardInto(prev: seq<Card>, card: Card) returns (next: seq<Card>)
    ensures next == ByTs(Others(prev, card) + [card])
  {
    next := [];
    for i := 0 to |prev|
      invariant next == Others(prev[..i], card)
    {
      assert prev[..i + 1][..i] == prev[..i];
      if prev[i].id != card.id && CanvasKey(prev[i]) != CanvasKey(card) {
        next := next + [prev[i]];
      }
    }
    assert prev[..|prev|] == prev;
    next := ByTs(next + [card]);
  }

  /** Upserting cards one after the other, as they arrive. */
  function Upserted(cards: seq<Card>): seq<Card> {
    if cards == [] then []
    else ByTs(Others(Upserted(cards[..|cards| - 1]), cards[|cards| - 1]) + [cards[|cards| - 1]])
  }

  // ------------------------------------------------------------ both keep the last card of each key

  /** The last card with a key. */
  function LastFor(cards: seq<Card>, key: string): Option<Card> {
    if cards == [] then None
    else if CanvasKey(cards[|cards| - 1]) == key then Some(cards[|cards| - 1])
    else LastFor(cards[..|cards| - 1], key)
  }

  /** The list is the map from each key to its last card. */
  ghost predicate IndexOf(s: seq<Card>, cards: seq<Card>) {
    OnePerKey(s) && forall c :: c in s <==> LastFor(cards, CanvasKey(c)) == Some(c)
  }

  /** Cards with one id have one key. */
  ghost predicate IdsKeepKeys(cards: seq<Card>) {
    forall a, b :: a in cards && b in cards && a.id == b.id ==> CanvasKey(a) == CanvasKey(b)
  }

  lemma {:induction false} PutHolds(s: seq<Card>, c: Card)
    requires OnePerKey(s)
    ensures OnePerKey(Put(s, c))
    ensures forall x :: x in Put(s, c) <==> x == c || (x in s && CanvasKey(x) != CanvasKey(c))
  {
    hide CanvasKey;
    if s != [] {
      assert s == [s[0]] + s[1..];
      if CanvasKey(s[0]) != CanvasKey(c) {
        PutHolds(s[1..], c);
        var t := Put(s[1..], c);
        forall i | 0 <= i < |t| ensures CanvasKey(t[i]) != CanvasKey(s[0]) {
          assert t[i] in t;
        }
      } else {
        forall x | x in s[1..] ensures CanvasKey(x) != CanvasKey(c) {
          var i :| 0 <= i < |s[1..]| && s[1..][i] == x;
          assert x == s[i + 1];
        }
      }
    }
  }

  lemma {:induction false} LastForIsMember(cards: seq<Card>, key: string)
    ensures LastFor(cards, key).Some? ==> LastFor(cards, key).value in cards && CanvasKey(LastFor(cards, key).value) == key
  {
    if cards != [] {
      LastForIsMember(cards[..|cards| - 1], key);
    }
  }

  lemma {:induction false} FilledIsIndex(cards: seq<Card>)
    ensures IndexOf(Filled(cards), cards)
  {
    hide CanvasKey, Put;
    if cards != [] {
      FilledIsIndex(cards[..|cards| - 1]);
      PutHolds(Filled(cards[..|cards| - 1]), cards[|cards| - 1]);
    }
  }

  lemma {:induction false} OthersHolds(prev: seq<Card>, card: Card)
    requires OnePerKey(prev)
    ensures OnePerKey(Others(prev, card))
    ensures forall x :: x in Others(prev, card) <==> x in prev && !Replaces(card, x)
  {
    hide CanvasKey, Replaces;
    if prev != [] {
      var n := |prev| - 1;
      OthersHolds(prev[..n], card);
      assert prev == prev[..n] + [prev[n]];
      var t := Others(prev[..n], card);
      forall i | 0 <= i < |t| ensures CanvasKey(t[i]) != CanvasKey(prev[n]) {
        assert t[i] in t;
      }
    }
  }

  /** Arrivals in any order: the upserted list keeps the last arrival of each key, sorted by ts. */
  lemma {:induction false} UpsertedIsIndex(cards: seq<Card>)
    requires IdsKeepKeys(cards)
    ensures IndexOf(Upserted(cards), cards) && InOrder(Upserted(cards))
  {
    hide CanvasKey, ByTs, Others;
    if cards != [] {
      var n := |cards| - 1;
      var init, card := cards[..n], cards[n];
      assert cards == init + [card];
      UpsertedIsIndex(init);
      var prev := Upserted(init);
      OthersHolds(prev, card);
      var next := Others(prev, card) + [card];
      forall c ensures c in next <==> LastFor(cards, CanvasKey(c)) == Some(c) {
        LastForIsMember(init, CanvasKey(c));
      }
      assert OnePerKey(next);
      ByTsHolds(next);
    }
  }

  /** Upserting the cards in ts order gives the same card for every key as building the canvas at once, one
      card per key. */
  lemma UpsertsEqualBuild(cards: seq<Card>)
    requires IdsKeepKeys(cards)
    ensures var a, b := Upserted(ByTs(cards)), Filled(ByTs(cards));
      OnePerKey(a) && OnePerKey(b) && (forall c :: c in a <==> c in b) && |a| == |b|
  {
    hide CanvasKey, Upserted, Filled;
    ByTsHolds(cards);
    FilledIsIndex(ByTs(cards));
    UpsertedIsIndex(ByTs(cards));
    SameSize(Upserted(ByTs(cards)), Filled(ByTs(cards)));
  }

  lemma {:induction false} SameSize(a: seq<Card>, b: seq<Card>)
    requires OnePerKey(a) && OnePerKey(b) && forall c :: c in a <==> c in b
    ensures |a| == |b|
  {
    SizeIsCardinality(a);
    SizeIsCardinality(b);
    assert (set c | c in a) == (set c | c in b);
  }

  lemma {:induction false} SizeIsCardinality(a: seq<Card>)
    requires OnePerKey(a)
    ensures |set c | c in a| == |a|
  {
    hide CanvasKey;
    if a != [] {
      var init, last := a[..|a| - 1], a[|a| - 1];
      SizeIsCardinality(init);
      assert a == init + [last];
      forall i | 0 <= i < |init| ensures init[i] != last {
        assert CanvasKey(a[i]) != CanvasKey(a[|a| - 1]);
      }
      assert (set c | c in a) == (set c | c in init) + {last};
    }
  }

  /** The canvas shows, for each key, a card that no other card of the key is newer than. */
  lemma {:induction false} LastIsNewest(s: seq<Card>, key: string, c: Card)
    requires InOrder(s) && c in s && CanvasKey(c) == key
    ensures LastFor(s, key).Some? && c.rank <= LastFor(s, key).value.rank
  {
    hide CanvasKey;
    var n := |s| - 1;
    assert s == s[..n] + [s[n]];
    if CanvasKey(s[n]) != key {
      LastIsNewest(s[..n], key, c);
    } else {
      var i :| 0 <= i < |s| && s[i] == c;
    }
  }

  lemma CanvasShowsNewest(cards: seq<Card>, shown: Card, c: Card)
    requires shown in Filled(ByTs(cards)) && c in cards && CanvasKey(c) == CanvasKey(shown)
    ensures c.rank <= shown.rank
  {
    hide CanvasKey, Filled;
    ByTsHolds(cards);
    FilledIsIndex(ByTs(cards));
    LastIsNewest(ByTs(cards), CanvasKey(shown), c);
  }

  /** Two cards share a key exactly when they are of one kind and of one task, a card without a task counting
      as of the task "null"; kinds hold no colon. */
  lemma SameKeyIff(a: Card, b: Card)
    requires ':' !in a.kind && ':' !in b.kind
    ensures CanvasKey(a) == CanvasKey(b) <==>
      a.kind == b.kind && (if a.task.Some? then a.task.value else "null") == (if b.task.Some? then b.task.value else "null")
  {
    var x, y := if a.task.Some? then a.task.value else "null", if b.task.Some? then b.task.value else "null";
    if CanvasKey(a) == CanvasKey(b) {
      TailsAgree(x, a.kind, y, b.kind);
    }
  }

  lemma TailsAgree(x: string, k: string, y: string, l: string)
    requires ':' !in k && ':' !in l && x + "::" + k == y + "::" + l
    ensures x == y && k == l
  {
    var s, t := x + "::" + k, y + "::" + l;
    LastColon(s, x, k);
    LastColon(t, y, l);
    assert |x| == |y|;
    assert s[..|x|] == x && t[..|y|] == y && s[|x| + 2..] == k && t[|y| + 2..] == l;
  }

  lemma LastColon(s: string, x: string, k: string)
    requires ':' !in k && s == x + "::" + k
    ensures |s| == |x| + 2 + |k| && s[|x| + 1] == ':' && forall i :: |x| + 2 <= i < |s| ==> s[i] != ':'
  {
    forall i | |x| + 2 <= i < |s| ensures s[i] != ':' {
      assert s[i] == k[i - |x| - 2];
    }
  }

  // ------------------------------------------------------------ arrivals out of order

  /** Inserting a card changes the last card of its own key only, and only when it is not older. */
  lemma {:induction false} InsertLast(c: Card, s: seq<Card>, key: string)
    requires InOrder(s)
    ensures LastFor(Insert(c, s), key)
         == if CanvasKey(c) == key && (LastFor(s, key).None? || LastFor(s, key).value.rank <= c.rank)
            then Some(c) else LastFor(s, key)
  {
    hide CanvasKey;
    if s == [] || s[|s| - 1].rank <= c.rank {
      assert (s + [c])[..|s|] == s;
      LastForIsMember(s, key);
    } else {
      var init, last := s[..|s| - 1], s[|s| - 1];
      InsertLast(c, init, key);
      assert (Insert(c, init) + [last])[..|Insert(c, init)|] == Insert(c, init);
    }
  }

  /** What the canvas shows for a key after one more arrival. */
  lemma NewestAfter(cards: seq<Card>, key: string)
    requires cards != []
    ensures var init, c := cards[..|cards| - 1], cards[|cards| - 1]; var before := LastFor(ByTs(init), key);
      LastFor(ByTs(cards), key)
      == if CanvasKey(c) == key && (before.None? || before.value.rank <= c.rank) then Some(c) else before
  {
    hide CanvasKey, LastFor, Insert;
    ByTsHolds(cards[..|cards| - 1]);
    InsertLast(cards[|cards| - 1], ByTs(cards[..|cards| - 1]), key);
  }

  /** No card of a key is newer than its last arrival. */
  predicate LastIsGreatest(cards: seq<Card>, key: string) {
    forall i :: 0 <= i < |cards| && CanvasKey(cards[i]) == key ==>
      LastFor(cards, key).Some? && cards[i].rank <= LastFor(cards, key).value.rank
  }

  lemma NewestBounds(cards: seq<Card>, key: string, i: nat)
    requires i < |cards| && CanvasKey(cards[i]) == key
    ensures LastFor(ByTs(cards), key).Some? && cards[i].rank <= LastFor(ByTs(cards), key).value.rank
  {
    hide CanvasKey, LastFor, ByTs;
    ByTsHolds(cards);
    assert cards[i] in ByTs(cards);
    LastIsNewest(ByTs(cards), key, cards[i]);
  }

  lemma {:induction false} AbsentHasNoLast(cards: seq<Card>, key: string)
    ensures LastFor(cards, key).None? <==> forall i :: 0 <= i < |cards| ==> CanvasKey(cards[i]) != key
  {
    hide CanvasKey;
    if cards != [] {
      var n := |cards| - 1;
      AbsentHasNoLast(cards[..n], key);
      assert forall i :: 0 <= i < n ==> cards[..n][i] == cards[i];
    }
  }

  /** The last arrival of a key is what the canvas shows for it exactly when none of its key is newer. */
  lemma {:induction false} LastIsShownIff(cards: seq<Card>, key: string)
    ensures LastFor(cards, key) == LastFor(ByTs(cards), key) <==> LastIsGreatest(cards, key)
  {
    hide CanvasKey, LastFor, ByTs, LastIsGreatest;
    if cards == [] {
      NothingShown(key);
    } else {
      LastIsShownIff(cards[..|cards| - 1], key);
      LastIsShownStep(cards, key);
    }
  }

  lemma NothingShown(key: string)
    ensures LastFor([], key) == LastFor(ByTs([]), key) && LastIsGreatest([], key)
  {
  }

  lemma LastIsShownStep(cards: seq<Card>, key: string)
    requires cards != []
    requires var init := cards[..|cards| - 1];
      LastFor(init, key) == LastFor(ByTs(init), key) <==> LastIsGreatest(init, key)
    ensures LastFor(cards, key) == LastFor(ByTs(cards), key) <==> LastIsGreatest(cards, key)
  {
    var n := |cards| - 1;
    var init, c := cards[..n], cards[n];
    NewestAfter(cards, key);
    hide ByTs, CanvasKey;
    assert forall i :: 0 <= i < n ==> init[i] == cards[i];
    if CanvasKey(c) == key {
      assert LastFor(cards, key) == Some(c);
      if LastIsGreatest(cards, key) {
        LastForIsMember(ByTs(init), key);
        MemberOfSorted(init, key);
      } else {
        var i :| 0 <= i < |cards| && CanvasKey(cards[i]) == key && !(cards[i].rank <= c.rank);
        NewestBounds(cards, key, i);
      }
    } else {
      OtherKeyArrives(cards, key);
    }
  }

  lemma OtherKeyArrives(cards: seq<Card>, key: string)
    requires cards != [] && CanvasKey(cards[|cards| - 1]) != key
    ensures var init := cards[..|cards| - 1];
      LastFor(cards, key) == LastFor(init, key) && (LastIsGreatest(cards, key) <==> LastIsGreatest(init, key))
  {
    hide CanvasKey;
    var n := |cards| - 1;
    assert LastFor(cards, key) == LastFor(cards[..n], key);
    hide LastFor;
    assert forall i :: 0 <= i < n ==> cards[..n][i] == cards[i];
  }

  /** What the canvas shows is one of the arrivals. */
  lemma MemberOfSorted(cards: seq<Card>, key: string)
    ensures var r := LastFor(ByTs(cards), key);
      r.Some? ==> CanvasKey(r.value) == key && exists i :: 0 <= i < |cards| && cards[i] == r.value
  {
    hide CanvasKey, ByTs;
    ByTsHolds(cards);
    LastForIsMember(ByTs(cards), key);
  }

  /** Upserting the cards as they arrive shows the same cards as building the canvas exactly when no card
      of any key is newer than the last arrival of its key. */
  lemma ArrivalsAgreeIff(cards: seq<Card>)
    requires IdsKeepKeys(cards)
    ensures (forall c :: c in Upserted(cards) <==> c in Filled(ByTs(cards)))
        <==> (forall i :: 0 <= i < |cards| ==> LastIsGreatest(cards, CanvasKey(cards[i])))
  {
    hide CanvasKey, Upserted, Filled, ByTs, LastIsGreatest, LastFor;
    UpsertedIsIndex(cards);
    FilledIsIndex(ByTs(cards));
    forall key ensures LastFor(cards, key) == LastFor(ByTs(cards), key) <==> LastIsGreatest(cards, key) {
      LastIsShownIff(cards, key);
    }
    if forall c :: c in Upserted(cards) <==> c in Filled(ByTs(cards)) {
      forall i | 0 <= i < |cards| ensures LastIsGreatest(cards, CanvasKey(cards[i])) {
        var key := CanvasKey(cards[i]);
        AbsentHasNoLast(cards, key);
        LastForIsMember(cards, key);
        assert LastFor(cards, key).value in Upserted(cards);
      }
    }
    if forall i :: 0 <= i < |cards| ==> LastIsGreatest(cards, CanvasKey(cards[i])) {
      forall c ensures c in Upserted(cards) <==> c in Filled(ByTs(cards)) {
        KeyIsShown(cards, CanvasKey(c));
      }
    }
  }

  lemma KeyIsShown(cards: seq<Card>, key: string)
    requires forall i :: 0 <= i < |cards| ==> LastIsGreatest(cards, CanvasKey(cards[i]))
    ensures LastFor(cards, key) == LastFor(ByTs(cards), key)
  {
    hide CanvasKey, ByTs, LastFor, LastIsGreatest;
    LastIsShownIff(cards, key);
    AbsentHasNoLast(cards, key);
    if LastFor(cards, key).None? {
      NoneIsGreatest(cards, key);
    }
  }

  lemma NoneIsGreatest(cards: seq<Card>, key: string)
    requires forall i :: 0 <= i < |cards| ==> CanvasKey(cards[i]) != key
    ensures LastIsGreatest(cards, key)
  {
  }

  /** One key, the newer card first: upserting shows the older card, the canvas the newer one. */
  lemma OlderArrivesLast() returns (cards: seq<Card>)
    ensures |cards| == 2 && IdsKeepKeys(cards)
    ensures cards[0].rank > cards[1].rank && CanvasKey(cards[0]) == CanvasKey(cards[1])
    ensures Upserted(cards) == [cards[1]] && Filled(ByTs(cards)) == [cards[0]]
  {
    var newer, older := Card("a", None, "offer", 2, ""), Card("b", None, "offer", 1, "");
    cards := [newer, older];
    assert cards[..1] == [newer] && [newer][..0] == [];
    assert ByTs([newer]) == [newer];
    assert Insert(older, []) == [older] && Insert(older, [newer]) == [older, newer];
    assert ByTs(cards) == Insert(older, ByTs([newer]));
    assert Upserted([newer]) == [newer];
    assert Others([newer], older) == [];
    assert [older, newer][..1] == [older] && [older][..0] == [];
    assert Filled([older]) == [older];
    assert ByTs([older]) == [older];
  }
}

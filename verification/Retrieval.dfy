/**
 The recursive queries of roles/_retrieval/functions.py: the related group of a party with its exposure,
 and the document graph around a page. Both run in rounds, each round joining only the rows that the
 round before added.
 */
module Retrieval {
  import opened Wrappers

  /** An arc of the graph; the label travels into the row that the arc produces. */
  datatype Arc = Arc(from: string, via: string, to: string)

  datatype Row = Row(node: string, via: string, level: nat)

  /** The rows of one level: one step further than the level before. */
  function RowsAt(arcs: set<Arc>, start: string, level: nat): set<Row> {
    if level == 0 then {Row(start, "", 0)}
    else set a, r | a in arcs && r in RowsAt(arcs, start, level - 1) && a.from == r.node :: Row(a.to, a.via, level)
  }

  function RowsUpTo(arcs: set<Arc>, start: string, level: nat): set<Row> {
    if level == 0 then RowsAt(arcs, start, 0) else RowsUpTo(arcs, start, level - 1) + RowsAt(arcs, start, level)
  }

  lemma {:induction false} LevelsAre(arcs: set<Arc>, start: string, level: nat)
    ensures forall r :: r in RowsUpTo(arcs, start, level) <==> r.level <= level && r in RowsAt(arcs, start, r.level)
    ensures forall r :: r in RowsAt(arcs, start, level) ==> r.level == level
  {
    if level > 0 {
      LevelsAre(arcs, start, level - 1);
    }
  }

  lemma EmptyNext(arcs: set<Arc>, start: string, level: nat)
    requires RowsAt(arcs, start, level) == {}
    ensures RowsAt(arcs, start, level + 1) == {}
  {
  }

  lemma {:induction false} EmptyStays(arcs: set<Arc>, start: string, level: nat, last: nat)
    requires 0 < level <= last && RowsAt(arcs, start, level) == {}
    ensures RowsAt(arcs, start, last) == {}
    ensures RowsUpTo(arcs, start, last) == RowsUpTo(arcs, start, level - 1)
    decreases last - level
  {
    hide RowsAt;
    if level < last {
      EmptyStays(arcs, start, level, last - 1);
      EmptyNext(arcs, start, last - 1);
    }
  }

  /** What one round of the query produces. */
  function Produced(arcs: set<Arc>, working: set<Row>, depth: nat): set<Row> {
    set a, r | a in arcs && r in working && a.from == r.node && r.level < depth :: Row(a.to, a.via, r.level + 1)
  }

  lemma RoundProduces(arcs: set<Arc>, start: string, level: nat, depth: nat)
    requires level <= depth
    ensures Produced(arcs, RowsAt(arcs, start, level), depth)
         == if level < depth then RowsAt(arcs, start, level + 1) else {}
  {
    LevelsAre(arcs, start, level);
    var produced := Produced(arcs, RowsAt(arcs, start, level), depth);
    if level < depth {
      forall x ensures x in produced <==> x in RowsAt(arcs, start, level + 1) {
      }
    }
  }

  lemma NextLevelIsNew(arcs: set<Arc>, start: string, level: nat)
    ensures RowsAt(arcs, start, level + 1) - RowsUpTo(arcs, start, level) == RowsAt(arcs, start, level + 1)
    ensures RowsUpTo(arcs, start, level) + RowsAt(arcs, start, level + 1) == RowsUpTo(arcs, start, level + 1)
  {
    LevelsAre(arcs, start, level);
    LevelsAre(arcs, start, level + 1);
  }

  /** Where the query stands after `level` rounds. */
  ghost predicate AtRound(arcs: set<Arc>, start: string, depth: nat, level: nat, working: set<Row>, rows: set<Row>) {
    if level <= depth
    then working == RowsAt(arcs, start, level) && rows == RowsUpTo(arcs, start, level)
    else working == {} && rows == RowsUpTo(arcs, start, depth)
  }

  lemma RoundStep(arcs: set<Arc>, start: string, depth: nat, level: nat, working: set<Row>, rows: set<Row>)
    requires AtRound(arcs, start, depth, level, working, rows) && level <= depth
    ensures var next := Produced(arcs, working, depth) - rows;
      AtRound(arcs, start, depth, level + 1, next, rows + next)
  {
    RoundProduces(arcs, start, level, depth);
    NextLevelIsNew(arcs, start, level);
    hide RowsAt, RowsUpTo, Produced;
    assert rows + {} == rows;
  }

  lemma LastRound(arcs: set<Arc>, start: string, depth: nat, level: nat, rows: set<Row>)
    requires AtRound(arcs, start, depth, level, {}, rows)
    ensures rows == RowsUpTo(arcs, start, depth)
  {
    if level <= depth {
      assert level > 0;
      hide RowsAt;
      EmptyStays(arcs, start, level, level);
      EmptyStays(arcs, start, level, depth);
    }
  }

  /** The recursive query: rows already found are not produced again, and it ends when a round adds none. */
  method Walk(arcs: set<Arc>, start: string, depth: nat) returns (rows: set<Row>)
    ensures rows == RowsUpTo(arcs, start, depth)
  {
    var working := {Row(start, "", 0)};
    rows := working;
    ghost var level := 0;
    assert AtRound(arcs, start, depth, 0, working, rows);
    while working != {}
      invariant level <= depth + 1 && AtRound(arcs, start, depth, level, working, rows)
      decreases depth + 1 - level
    {
      assert level <= depth;
      hide AtRound, Produced;
      RoundStep(arcs, start, depth, level, working, rows);
      working := Produced(arcs, working, depth) - rows;
      rows := rows + working;
      level := level + 1;
    }
    LastRound(arcs, start, depth, level, rows);
  }

  // ------------------------------------------------------------ walks

  predicate Linked(arcs: set<Arc>, a: string, b: string) {
    exists x :: x in arcs && x.from == a && x.to == b
  }

  predicate IsWalk(arcs: set<Arc>, p: seq<string>) {
    |p| > 0 && forall i :: 0 <= i < |p| - 1 ==> Linked(arcs, p[i], p[i + 1])
  }

  /** A walk of `n` steps from `a` to `b`. */
  ghost predicate Steps(arcs: set<Arc>, a: string, b: string, n: nat) {
    exists p :: IsWalk(arcs, p) && |p| == n + 1 && p[0] == a && p[n] == b
  }

  predicate Reached(rows: set<Row>, node: string, level: nat) {
    exists r :: r in rows && r.node == node && r.level == level
  }

  lemma StepBack(arcs: set<Arc>, a: string, b: string, n: nat) returns (m: string)
    requires Steps(arcs, a, b, n + 1)
    ensures Steps(arcs, a, m, n) && Linked(arcs, m, b)
  {
    var p :| IsWalk(arcs, p) && |p| == n + 2 && p[0] == a && p[n + 1] == b;
    m := p[n];
    assert IsWalk(arcs, p[..n + 1]);
    assert Linked(arcs, p[n], p[n + 1]);
  }

  lemma StepOn(arcs: set<Arc>, a: string, m: string, b: string, n: nat)
    requires Steps(arcs, a, m, n) && Linked(arcs, m, b)
    ensures Steps(arcs, a, b, n + 1)
  {
    var p :| IsWalk(arcs, p) && |p| == n + 1 && p[0] == a && p[n] == m;
    assert IsWalk(arcs, p + [b]);
    assert (p + [b])[n + 1] == b;
  }

  /** The rows of a level are the ends of the walks of that length. */
  lemma {:induction false} RowsAreWalks(arcs: set<Arc>, start: string, node: string, n: nat)
    ensures Reached(RowsAt(arcs, start, n), node, n) <==> Steps(arcs, start, node, n)
    decreases n
  {
    if n == 0 {
      if node == start {
        assert IsWalk(arcs, [start]);
        assert Row(start, "", 0) in RowsAt(arcs, start, 0);
      }
    } else {
      LevelsAre(arcs, start, n);
      LevelsAre(arcs, start, n - 1);
      if Steps(arcs, start, node, n) {
        var m := StepBack(arcs, start, node, n - 1);
        RowsAreWalks(arcs, start, m, n - 1);
        var r :| r in RowsAt(arcs, start, n - 1) && r.node == m;
        var x :| x in arcs && x.from == m && x.to == node;
        assert Row(x.to, x.via, n) in RowsAt(arcs, start, n);
      }
      if Reached(RowsAt(arcs, start, n), node, n) {
        var r :| r in RowsAt(arcs, start, n) && r.node == node;
        var x, q :| x in arcs && q in RowsAt(arcs, start, n - 1) && x.from == q.node && r == Row(x.to, x.via, n);
        RowsAreWalks(arcs, start, q.node, n - 1);
        assert Reached(RowsAt(arcs, start, n - 1), q.node, n - 1);
        StepOn(arcs, start, q.node, node, n - 1);
      }
    }
  }

  /** The length of a shortest walk. */
  ghost predicate Distance(arcs: set<Arc>, a: string, b: string, n: nat) {
    Steps(arcs, a, b, n) && forall m: nat :: m < n ==> !Steps(arcs, a, b, m)
  }

  // ------------------------------------------------------------ the related group

  datatype Relation = Relation(from: string, to: string, kind: string)

  /** A relation is walked from either end. */
  function ArcsOf(relations: set<Relation>): set<Arc> {
    (set p | p in relations :: Arc(p.from, p.kind, p.to)) + (set p | p in relations :: Arc(p.to, p.kind, p.from))
  }

  const GROUP_DEPTH: nat := 2

  /** MIN(lvl) of a node, looked for from `level` on; past the depth when it has no row. */
  function MinLevel(rows: set<Row>, node: string, level: nat): (m: nat)
    requires level <= GROUP_DEPTH + 1
    ensures level <= m <= GROUP_DEPTH + 1
    ensures m <= GROUP_DEPTH ==> Reached(rows, node, m)
    ensures forall l :: level <= l < m ==> !Reached(rows, node, l)
    decreases GROUP_DEPTH + 1 - level
  {
    if level == GROUP_DEPTH + 1 || Reached(rows, node, level) then level else MinLevel(rows, node, level + 1)
  }

  /** The members besides the owner, with their levels. */
  function Members(rows: set<Row>, owner: string): map<string, nat> {
    map n | n in (set r | r in rows :: r.node) && n != owner :: MinLevel(rows, n, 0)
  }

  function GroupOf(relations: set<Relation>, owner: string): map<string, nat> {
    Members(RowsUpTo(ArcsOf(relations), owner, GROUP_DEPTH), owner)
  }

  lemma ReachedUpTo(arcs: set<Arc>, start: string, node: string, level: nat, depth: nat)
    requires level <= depth
    ensures Reached(RowsUpTo(arcs, start, depth), node, level) <==> Steps(arcs, start, node, level)
  {
    hide Steps;
    RowsAreWalks(arcs, start, node, level);
    LevelsAre(arcs, start, depth);
    LevelsAre(arcs, start, level);
  }

  /** The group holds exactly the other parties within two undirected steps, each with its distance. */
  lemma GroupIsDistance(relations: set<Relation>, owner: string, n: string, m: nat)
    requires n != owner
    ensures n in GroupOf(relations, owner) && GroupOf(relations, owner)[n] == m
        <==> m <= 2 && Distance(ArcsOf(relations), owner, n, m)
  {
    hide Steps, Reached, ArcsOf;
    var arcs := ArcsOf(relations);
    var rows := RowsUpTo(arcs, owner, GROUP_DEPTH);
    forall l: nat | l <= GROUP_DEPTH ensures Reached(rows, n, l) <==> Steps(arcs, owner, n, l) {
      ReachedUpTo(arcs, owner, n, l, GROUP_DEPTH);
    }
    NodesAreReached(arcs, owner, n);
    hide RowsUpTo;
  }

  lemma NodesAreReached(arcs: set<Arc>, start: string, node: string)
    ensures var rows := RowsUpTo(arcs, start, GROUP_DEPTH);
      node in (set r | r in rows :: r.node) <==> MinLevel(rows, node, 0) <= GROUP_DEPTH
  {
    var rows := RowsUpTo(arcs, start, GROUP_DEPTH);
    LevelsAre(arcs, start, GROUP_DEPTH);
    hide RowsUpTo;
    if r :| r in rows && r.node == node {
      assert Reached(rows, node, r.level);
    }
  }

  lemma LinkedBothWays(relations: set<Relation>, a: string, b: string)
    requires Linked(ArcsOf(relations), a, b)
    ensures Linked(ArcsOf(relations), b, a)
  {
    var x :| x in ArcsOf(relations) && x.from == a && x.to == b;
    assert Arc(b, x.via, a) in ArcsOf(relations);
  }

  lemma WalkBack(relations: set<Relation>, a: string, b: string, n: nat)
    requires Steps(ArcsOf(relations), a, b, n)
    ensures Steps(ArcsOf(relations), b, a, n)
  {
    hide ArcsOf, Linked;
    var arcs := ArcsOf(relations);
    var p :| IsWalk(arcs, p) && |p| == n + 1 && p[0] == a && p[n] == b;
    var q := seq(n + 1, i requires 0 <= i <= n => p[n - i]);
    forall i | 0 <= i < n ensures Linked(arcs, q[i], q[i + 1]) {
      assert Linked(arcs, p[n - i - 1], p[n - i - 1 + 1]);
      LinkedBothWays(relations, p[n - i - 1], p[n - i]);
    }
    assert IsWalk(arcs, q);
  }

  /** Membership is symmetric, with the same level both ways. */
  lemma GroupIsSymmetric(relations: set<Relation>, a: string, b: string, m: nat)
    requires a != b
    ensures b in GroupOf(relations, a) && GroupOf(relations, a)[b] == m
        <==> a in GroupOf(relations, b) && GroupOf(relations, b)[a] == m
  {
    hide GroupOf, Steps, ArcsOf;
    GroupIsDistance(relations, a, b, m);
    GroupIsDistance(relations, b, a, m);
    var arcs := ArcsOf(relations);
    forall l: nat ensures Steps(arcs, a, b, l) <==> Steps(arcs, b, a, l) {
      if Steps(arcs, a, b, l) {
        WalkBack(relations, a, b, l);
      }
      if Steps(arcs, b, a, l) {
        WalkBack(relations, b, a, l);
      }
    }
  }

  // ------------------------------------------------------------ exposure

  datatype Loan = Loan(owner: string, active: bool, outstanding: real)

  function Exposure(loans: seq<Loan>, members: set<string>): real {
    if loans == [] then 0.0
    else
      var n := |loans| - 1;
      Exposure(loans[..n], members) + (if loans[n].active && loans[n].owner in members then loans[n].outstanding else 0.0)
  }

  datatype Result =
    | BadParam | NotFound
    | Group(members: map<string, nat>, own: real, total: real, singleOk: bool, groupOk: bool)

  /** `legal_related_exposure`. */
  method RelatedExposure(known: set<string>, relations: set<Relation>, loans: seq<Loan>, owner: string, newLoan: real,
                         singleCap: real, groupCap: real)
    returns (r: Result)
    ensures newLoan < 0.0 ==> r == BadParam
    ensures newLoan >= 0.0 && owner !in known ==> r == NotFound
    ensures newLoan >= 0.0 && owner in known ==>
      var group := GroupOf(relations, owner);
      r == Group(group, Exposure(loans, {owner}), Exposure(loans, group.Keys + {owner}),
                 Exposure(loans, {owner}) + newLoan <= singleCap,
                 Exposure(loans, group.Keys + {owner}) + newLoan <= groupCap)
  {
    if newLoan < 0.0 {
      return BadParam;
    }
    if owner !in known {
      return NotFound;
    }
    var rows := Walk(ArcsOf(relations), owner, GROUP_DEPTH);
    var members := Members(rows, owner);
    var inGroup := members.Keys + {owner};
    var own, total := 0.0, 0.0;
    for i := 0 to |loans|
      invariant own == Exposure(loans[..i], {owner}) && total == Exposure(loans[..i], inGroup)
    {
      assert loans[..i + 1][..i] == loans[..i];
      if loans[i].active && loans[i].owner in inGroup {
        total := total + loans[i].outstanding;
        if loans[i].owner == owner {
          own := own + loans[i].outstanding;
        }
      }
    }
    assert loans[..|loans|] == loans;
    return Group(members, own, total, own + newLoan <= singleCap, total + newLoan <= groupCap);
  }

  /** A further loan counts exactly when it is active and one of the parties owes it, wherever it stands in
      the table. */
  lemma {:induction false} ExposureCounts(loans: seq<Loan>, l: Loan, members: set<string>)
    ensures Exposure([], members) == 0.0
    ensures Exposure([l] + loans, members)
         == Exposure(loans, members) + (if l.active && l.owner in members then l.outstanding else 0.0)
  {
    if loans == [] {
      assert [l][..0] == [] && [l] + loans == [l];
    } else {
      var n := |loans| - 1;
      assert ([l] + loans)[..|[l] + loans| - 1] == [l] + loans[..n];
      ExposureCounts(loans[..n], l, members);
    }
  }

  /** Exposures of disjoint sets of parties add up: no active loan is counted twice. */
  lemma {:induction false} ExposureAdds(loans: seq<Loan>, a: set<string>, b: set<string>)
    requires a !! b
    ensures Exposure(loans, a + b) == Exposure(loans, a) + Exposure(loans, b)
  {
    if loans != [] {
      ExposureAdds(loans[..|loans| - 1], a, b);
    }
  }

  lemma {:induction false} ExposureIsPositive(loans: seq<Loan>, a: set<string>)
    requires forall i :: 0 <= i < |loans| ==> loans[i].outstanding >= 0.0
    ensures Exposure(loans, a) >= 0.0
  {
    if loans != [] {
      ExposureIsPositive(loans[..|loans| - 1], a);
    }
  }

  /** The group's exposure is the owner's plus that of the other members, so never below the owner's. */
  lemma GroupExposureCoversOwn(relations: set<Relation>, loans: seq<Loan>, owner: string)
    requires forall i :: 0 <= i < |loans| ==> loans[i].outstanding >= 0.0
    ensures var others := GroupOf(relations, owner).Keys;
      && owner !in others
      && Exposure(loans, others + {owner}) == Exposure(loans, others) + Exposure(loans, {owner})
      && Exposure(loans, others + {owner}) >= Exposure(loans, {owner})
  {
    var others := GroupOf(relations, owner).Keys;
    ExposureAdds(loans, others, {owner});
    ExposureIsPositive(loans, others);
  }

  // ------------------------------------------------------------ the document graph

  datatype Edge = Edge(from: string, to: string, level: nat)

  function LinkArcs(links: set<(string, string)>): set<Arc> {
    set l | l in links :: Arc(l.0, l.0, l.1)
  }

  /** `depth` clamped to one, two or three. */
  function Clamp(depth: int): nat {
    if depth < 1 then 1 else if depth > 3 then 3 else depth
  }

  /** The walk of `wiki_related_docs`: its rows are links, labelled with the page they leave. */
  method RelatedDocs(links: set<(string, string)>, page: string, depth: int) returns (edges: set<Edge>)
    ensures forall e :: e in edges <==>
      && 1 <= e.level <= 3 && (e.level == 1 || e.level <= depth)
      && (e.from, e.to) in links && Steps(LinkArcs(links), page, e.from, e.level - 1)
  {
    var rows := Walk(LinkArcs(links), page, Clamp(depth));
    edges := set r | r in rows && r.level >= 1 :: Edge(r.via, r.node, r.level);
    forall e ensures e in edges <==>
      && 1 <= e.level <= 3 && (e.level == 1 || e.level <= depth)
      && (e.from, e.to) in links && Steps(LinkArcs(links), page, e.from, e.level - 1)
    {
      EdgeIff(links, page, e, Clamp(depth));
    }
  }

  lemma EdgeIff(links: set<(string, string)>, page: string, e: Edge, depth: nat)
    ensures (e.level >= 1 && Row(e.to, e.from, e.level) in RowsUpTo(LinkArcs(links), page, depth)) <==>
      1 <= e.level <= depth && (e.from, e.to) in links && Steps(LinkArcs(links), page, e.from, e.level - 1)
  {
    hide Steps;
    var arcs := LinkArcs(links);
    LevelsAre(arcs, page, depth);
    if 1 <= e.level <= depth {
      var n := e.level - 1;
      LevelsAre(arcs, page, n);
      RowsAreWalks(arcs, page, e.from, n);
      assert Arc(e.from, e.from, e.to) in arcs <==> (e.from, e.to) in links;
      if Row(e.to, e.from, e.level) in RowsAt(arcs, page, e.level) {
        var x, q :| x in arcs && q in RowsAt(arcs, page, n) && x.from == q.node
                    && Row(e.to, e.from, e.level) == Row(x.to, x.via, e.level);
        assert Reached(RowsAt(arcs, page, n), e.from, n);
      }
      if (e.from, e.to) in links && Steps(arcs, page, e.from, n) {
        var r :| r in RowsAt(arcs, page, n) && r.node == e.from;
        assert Arc(e.from, e.from, e.to) in arcs;
      }
    }
  }
}

/**
 Intake and the approval gate on one database: a conversation that an intake event creates is linked to
 its case in the same transaction, and no gated call ever gets past that link.
 */
module IntakeNeverPays {
  import opened Wrappers
  import opened Machines
  import opened Payload
  import opened Approvals
  import Intake
  import GateMachine
  import GateSafety

  datatype State = State(gate: GateMachine.State, intake: Intake.Store)

  datatype Label = Gate(gl: GateMachine.Label) | Deliver(d: Intake.Delivery)

  predicate Initial(s: State) {
    GateMachine.Initial(s.gate) && s.intake == Intake.EMPTY
  }

  /** The conversation of some link row: the join of `_linked_preassessment_refusal`. */
  ghost predicate HasLink(links: map<Intake.CaseKey, Intake.Link>, conv: ConvId) {
    exists c :: c in links && links[c].conversation == Some(conv)
  }

  /** A delivery commits its new conversation and its link together; the gate sees both or neither. */
  function Next(s: State, l: Label): Option<State> {
    match l
    case Gate(gl) =>
      var g := if gl.LinkConversation? then None else GateMachine.Next(s.gate, gl);
      if g.Some? then Some(s.(gate := g.value)) else None
    case Deliver(d) =>
      if d.newConv in s.gate.convs then None
      else
        var t := Intake.Ingest(s.intake, d.event, d.shadow, d.newConv).0;
        if t.convs == s.intake.convs then Some(s.(intake := t))
        else
          var g := GateMachine.Next(s.gate, GateMachine.LinkConversation(d.newConv));
          if g.Some? then Some(State(g.value, t)) else None
  }

  /** The conversations the gate refuses are those the intake created, and each has its link. */
  ghost predicate Inv(s: State) {
    && GateSafety.Inv(s.gate)
    && s.gate.linked == s.intake.convs
    && s.gate.linked <= s.gate.convs
    && forall conv :: conv in s.intake.convs <==> HasLink(s.intake.links, conv)
  }

  /** What a delivery does to the set of linked conversations. */
  lemma LinksFollow(s: Intake.Store, d: Intake.Delivery)
    requires d.newConv !in s.convs
    requires forall conv :: conv in s.convs <==> HasLink(s.links, conv)
    ensures var t := Intake.Ingest(s, d.event, d.shadow, d.newConv).0;
      forall conv :: conv in t.convs <==> HasLink(t.links, conv)
  {
    hide Intake.Ingest;
    var t := Intake.Ingest(s, d.event, d.shadow, d.newConv).0;
    Intake.ConversationIsLinked(s, d);
    forall conv ensures conv in t.convs <==> HasLink(t.links, conv) {
      if conv in s.convs {
        var c :| c in s.links && s.links[c].conversation == Some(conv);
        Intake.IngestMoves(s, d, c);
      }
      if HasLink(t.links, conv) {
        var c :| c in t.links && t.links[c].conversation == Some(conv);
        Intake.ConversationSource(s, d, c);
      }
    }
  }

  lemma LinkingChangesConvs(g: GateMachine.State, c: ConvId)
    requires c !in g.convs
    ensures GateMachine.Next(g, GateMachine.LinkConversation(c))
         == Some(g.(convs := g.convs + {c}, linked := g.linked + {c}))
  {
  }

  lemma SessionLinks(g: GateMachine.State, gl: GateMachine.Label)
    requires GateMachine.InSession(gl) && GateMachine.SessionStep(g, gl).Some?
    ensures var h := GateMachine.SessionStep(g, gl).value; h.linked == g.linked && h.convs == g.convs
  {
    hide GateMachine.Advance, GateMachine.ReadingOf, GateMachine.Written;
  }

  lemma GateLinks(g: GateMachine.State, gl: GateMachine.Label)
    requires GateMachine.Next(g, gl).Some? && !gl.LinkConversation?
    ensures var h := GateMachine.Next(g, gl).value; h.linked == g.linked && g.convs <= h.convs
  {
    hide GateMachine.SessionStep;
    if GateMachine.InSession(gl) {
      SessionLinks(g, gl);
    }
  }

  lemma StepKeeps(s: State, l: Label)
    requires Inv(s) && Next(s, l).Some?
    ensures Inv(Next(s, l).value)
  {
    hide GateSafety.Inv, GateMachine.Next, Intake.Ingest, HasLink;
    match l
    case Gate(gl) =>
      GateSafety.StepKeeps(s.gate, gl);
      GateLinks(s.gate, gl);
    case Deliver(d) =>
      LinksFollow(s.intake, d);
      Intake.ConversationIsLinked(s.intake, d);
      if Intake.Ingest(s.intake, d.event, d.shadow, d.newConv).0.convs != s.intake.convs {
        GateSafety.StepKeeps(s.gate, GateMachine.LinkConversation(d.newConv));
        LinkingChangesConvs(s.gate, d.newConv);
      }
  }

  /** In every run, a conversation created by an intake event is linked from birth and stays linked, and no
      approval row and no execution ever exists for it. */
  lemma IntakeConversationsNeverPay(s: State, ls: seq<Label>, k: Key)
    requires Initial(s) && IsRun(Next, s, ls)
    requires k.conv in End(Next, s, ls).intake.convs
    ensures var t := End(Next, s, ls);
      HasLink(t.intake.links, k.conv) && k !in t.gate.db.rows && CountFor(t.gate.db.executed, k) == 0
  {
    GateSafety.InitialOk(s.gate);
    assert Inv(s);
    hide Inv, Next;
    forall t, l | Inv(t) && Next(t, l).Some? ensures Inv(Next(t, l).value) {
      StepKeeps(t, l);
    }
    InvariantHolds(Next, Inv, s, ls);
    RefusedHasNoRow(End(Next, s, ls), k);
  }

  lemma RefusedHasNoRow(t: State, k: Key)
    requires Inv(t) && k.conv in t.intake.convs
    ensures HasLink(t.intake.links, k.conv) && k !in t.gate.db.rows && CountFor(t.gate.db.executed, k) == 0
  {
    hide GateSafety.Inv;
    GateSafety.LinkedNeverPays(t.gate, k);
  }

  /** Once created, such a conversation is never lost. */
  lemma {:induction false} CreatedStays(s: State, ls: seq<Label>)
    requires IsRun(Next, s, ls)
    ensures s.intake.convs <= End(Next, s, ls).intake.convs
    decreases |ls|
  {
    if ls != [] {
      hide GateMachine.Next;
      CreatedStays(Next(s, ls[0]).value, ls[1..]);
      if ls[0].Deliver? {
        ConvsGrow(s.intake, ls[0].d);
      }
    }
  }

  lemma ConvsGrow(s: Intake.Store, d: Intake.Delivery)
    ensures s.convs <= Intake.Ingest(s, d.event, d.shadow, d.newConv).0.convs
  {
    hide Intake.NextLink, Intake.RfiOf, Intake.OpensConversation;
  }
}

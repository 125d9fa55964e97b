/** Criteria and lanes of an assessment: the last part of `legal_classify_profile` in roles/legal/functions.py. */
module Lanes {

  datatype Level = Pass | Caution | Block

  datatype Criterion = Criterion(key: string, level: Level)

  datatype Lane = Green | Yellow | Red

  datatype OwnerKind = Customer | Business

  /** One row of the assessments ledger. */
  datatype Assessment = Assessment(owner: string, kind: OwnerKind, amount: real, lane: Lane, criteria: seq<Criterion>)

  predicate AnyAt(criteria: seq<Criterion>, level: Level) {
    exists i :: 0 <= i < |criteria| && criteria[i].level == level
  }

  function LaneOf(criteria: seq<Criterion>): Lane {
    if AnyAt(criteria, Block) then Red else if AnyAt(criteria, Caution) then Yellow else Green
  }
}

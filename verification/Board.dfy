/** The stages of the two pipelines of an organisation and how the services find one. */
module Board {
  import opened Wrappers

  type StageId = nat

  datatype Pipeline = Ia | Human
  datatype Status = Open | Won | Lost

  /** The names the services look for, and any other an operator may have given. */
  datatype Name =
    | IaNew | IaEngaging | IaQualifying | IaQualified | IaDisqualified
    | Intake | PaymentValidation | PaymentValidated | Handed | Closed | HumanLost
    | Custom(text: string)

  datatype Stage = Stage(kind: Pipeline, name: Name, position: nat, status: Status)

  /** The table of stages; a stage is identified by its row. */
  type Table = seq<Stage>

  const SEEDED: Table := [
    Stage(Ia, IaNew, 1, Open), Stage(Ia, IaEngaging, 2, Open), Stage(Ia, IaQualifying, 3, Open),
    Stage(Ia, IaQualified, 4, Open), Stage(Ia, IaDisqualified, 5, Lost),
    Stage(Human, Intake, 1, Open), Stage(Human, PaymentValidation, 2, Open), Stage(Human, PaymentValidated, 3, Open),
    Stage(Human, Handed, 4, Open), Stage(Human, Closed, 5, Won), Stage(Human, HumanLost, 6, Lost)]

  /** The stage with that name in that pipeline; the names of a pipeline are taken as distinct. */
  function GetStage(board: Table, kind: Pipeline, name: Name): (found: Option<StageId>)
    ensures found.Some? ==> found.value < |board| && board[found.value].kind == kind && board[found.value].name == name
    ensures found.None? ==> forall i :: 0 <= i < |board| ==> !(board[i].kind == kind && board[i].name == name)
  {
    if board == [] then None
    else
      var last := |board| - 1;
      if board[last].kind == kind && board[last].name == name then Some(last)
      else GetStage(board[..last], kind, name)
  }

  /** Some stage of the pipeline, only of that status when one is given. */
  predicate Fits(stage: Stage, kind: Pipeline, status: Option<Status>) {
    stage.kind == kind && (status.None? || status.value == stage.status)
  }

  /** The fitting stage of least position. */
  function Least(board: Table, kind: Pipeline, status: Option<Status>): (found: Option<StageId>)
    ensures found.Some? ==> found.value < |board| && Fits(board[found.value], kind, status)
    ensures found.Some? ==>
              forall i :: 0 <= i < |board| && Fits(board[i], kind, status) ==> board[found.value].position <= board[i].position
    ensures found.None? ==> forall i :: 0 <= i < |board| ==> !Fits(board[i], kind, status)
  {
    if board == [] then None
    else
      var last := |board| - 1;
      var before := Least(board[..last], kind, status);
      if Fits(board[last], kind, status) && (before.None? || board[last].position < board[before.value].position) then Some(last)
      else before
  }

  function FirstStage(board: Table, kind: Pipeline): Option<StageId> {
    Least(board, kind, None)
  }

  function StageByStatus(board: Table, kind: Pipeline, status: Status): Option<StageId> {
    Least(board, kind, Some(status))
  }

  /** What the services assume of a board: the delivery stages come in order and the sale starts open. */
  predicate InOrder(board: Table) {
    var awaiting, validated := GetStage(board, Human, PaymentValidation), GetStage(board, Human, PaymentValidated);
    var handed, won := GetStage(board, Human, Handed), StageByStatus(board, Human, Won);
    && (awaiting.Some? && validated.Some? ==> board[awaiting.value].position <= board[validated.value].position)
    && (validated.Some? && handed.Some? ==> board[validated.value].position < board[handed.value].position)
    && (handed.Some? && won.Some? ==> board[handed.value].position <= board[won.value].position)
  }

  predicate SaleStartsOpen(board: Table) {
    var first := FirstStage(board, Ia);
    first.Some? ==> board[first.value].status == Open
  }

  /** The seeded board meets both assumptions. */
  lemma SeededIsInOrder()
    ensures InOrder(SEEDED) && SaleStartsOpen(SEEDED)
  {
    assert SEEDED[6].name == PaymentValidation && SEEDED[7].name == PaymentValidated;
    assert SEEDED[8].name == Handed && SEEDED[9].status == Won;
    assert Fits(SEEDED[0], Ia, None) && Fits(SEEDED[9], Human, Some(Won));
  }
}

/**
 * The global error store: the error shown in the connection dialog and
 * the transition flag that suppresses errors while the cluster or
 * namespace is being switched.
 */
module ErrorStore {
  import opened Wrappers

  /** A JavaScript `Error`, as far as the app looks at it: its message. */
  datatype AppError = AppError(message: string)

  datatype State = State(error: Option<AppError>, isTransitioning: bool) {

    /** No error is held while a transition is in progress. */
    predicate Inv()
    {
      isTransitioning ==> error.None?
    }

    function SetError(e: Option<AppError>): State
    {
      if isTransitioning then this else this.(error := e)
    }

    function ClearError(): State
    {
      this.(error := None)
    }

    function StartTransition(): State
    {
      this.(isTransitioning := true, error := None)
    }

    function EndTransition(): State
    {
      this.(isTransitioning := false)
    }
  }

  const Initial := State(None, false)

  /** The store's operations, for reasoning about sequences of calls. */
  datatype Op = SetErrorOp(e: Option<AppError>) | ClearErrorOp | StartTransitionOp | EndTransitionOp

  function Apply(s: State, op: Op): State
  {
    match op
    case SetErrorOp(e) => s.SetError(e)
    case ClearErrorOp => s.ClearError()
    case StartTransitionOp => s.StartTransition()
    case EndTransitionOp => s.EndTransition()
  }

  function Run(s: State, ops: seq<Op>): State
    decreases |ops|
  {
    if |ops| == 0 then s else Run(Apply(s, ops[0]), ops[1..])
  }

  /** Every operation keeps "transitioning implies no error". */
  lemma ApplyPreservesInv(s: State, op: Op)
    requires s.Inv()
    ensures Apply(s, op).Inv()
  {
  }

  /** From the initial state, any sequence of calls keeps "transitioning implies no error". */
  lemma {:induction false} RunPreservesInv(s: State, ops: seq<Op>)
    requires s.Inv()
    ensures Run(s, ops).Inv()
    decreases |ops|
  {
    if |ops| > 0 {
      ApplyPreservesInv(s, ops[0]);
      RunPreservesInv(Apply(s, ops[0]), ops[1..]);
    }
  }

  lemma InitialInv()
    ensures Initial.Inv() && Initial.error.None? && !Initial.isTransitioning
  {
  }

  /** Until the transition ends, every reported error is discarded. */
  lemma {:induction false} ErrorsDiscardedDuringTransition(s: State, ops: seq<Op>)
    requires s.Inv() && s.isTransitioning
    requires forall i :: 0 <= i < |ops| ==> ops[i] != EndTransitionOp
    ensures Run(s, ops).error.None? && Run(s, ops).isTransitioning
    decreases |ops|
  {
    if |ops| > 0 {
      ErrorsDiscardedDuringTransition(Apply(s, ops[0]), ops[1..]);
    }
  }

  /** Once the transition has ended, the next reported error is shown. */
  lemma ErrorShownAfterTransition(s: State, e: AppError)
    ensures Run(s, [EndTransitionOp, SetErrorOp(Some(e))]).error == Some(e)
  {
    var ops := [EndTransitionOp, SetErrorOp(Some(e))];
    assert ops[1..] == [SetErrorOp(Some(e))];
    assert ops[1..][1..] == [];
    assert Run(s, ops) == Run(s.EndTransition(), ops[1..]);
    assert Run(s.EndTransition(), ops[1..]) == Run(s.EndTransition().SetError(Some(e)), []);
  }

  class Store {
    var error: Option<AppError>
    var isTransitioning: bool

    function Snapshot(): State
      reads this
    {
      State(error, isTransitioning)
    }

    constructor()
      ensures Snapshot() == Initial
    {
      error := None;
      isTransitioning := false;
    }

    /** Stores `e`, unless a transition is in progress. */
    method SetError(e: Option<AppError>)
      modifies this
      ensures Snapshot() == old(Snapshot()).SetError(e)
      ensures error == (if old(isTransitioning) then old(error) else e)
      ensures isTransitioning == old(isTransitioning)
    {
      if !isTransitioning {
        error := e;
      }
    }

    method ClearError()
      modifies this
      ensures Snapshot() == old(Snapshot()).ClearError()
      ensures error.None? && isTransitioning == old(isTransitioning)
    {
      error := None;
    }

    method StartTransition()
      modifies this
      ensures Snapshot() == old(Snapshot()).StartTransition()
      ensures isTransitioning && error.None?
    {
      isTransitioning := true;
      error := None;
    }

    method EndTransition()
      modifies this
      ensures Snapshot() == old(Snapshot()).EndTransition()
      ensures !isTransitioning && error == old(error)
    {
      isTransitioning := false;
    }
  }
}

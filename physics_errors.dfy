/** What the physics engine's error callback does with an error code:
    terminate the process with a status that tells fatal engine failures
    from misuse, or return and let the engine carry on. The diagnostic
    printout and the wait for Enter that precede the decision are not
    modelled. */
module PhysicsErrors {

  /** The codes of `PxErrorCode::Enum`. */
  datatype ErrorCode =
    | NoError
    | DebugInfo
    | DebugWarning
    | InvalidParameter
    | InvalidOperation
    | OutOfMemory
    | InternalError
    | Abort
    | PerfWarning
    | MaskAll

  /** `exit(status)`, or returning normally from the callback. */
  datatype Outcome = Exit(status: int) | Return

  /** A failure of the engine itself: nothing the game can go on from. */
  predicate IsEngineFailure(code: ErrorCode)
  {
    code == Abort || code == InternalError || code == OutOfMemory
  }

  /** A call the game made wrongly. */
  predicate IsMisuse(code: ErrorCode)
  {
    code == InvalidOperation || code == InvalidParameter
  }

  function ReportError(code: ErrorCode): (r: Outcome)
    ensures r == Exit(-1) <==> IsEngineFailure(code)
    ensures r == Exit(-2) <==> IsMisuse(code)
    ensures r == Return <==> !IsEngineFailure(code) && !IsMisuse(code)
  {
    match code
    case Abort => Exit(-1)
    case InternalError => Exit(-1)
    case OutOfMemory => Exit(-1)
    case InvalidOperation => Exit(-2)
    case InvalidParameter => Exit(-2)
    case _ => Return
  }

  /** Only engine failures and misuse terminate, and the two are told apart
      by the exit status alone. */
  lemma ExitStatusSeparatesCategories(c1: ErrorCode, c2: ErrorCode)
    requires ReportError(c1).Exit? && ReportError(c2).Exit?
    ensures ReportError(c1) == ReportError(c2) <==>
      (IsEngineFailure(c1) <==> IsEngineFailure(c2))
  {
  }
}

/** The qpOASES return codes the adapter knows by name, their messages
    (`QpoasesInterface::getErrorMessage`) and the rule `eval` uses to accept a solve. */
module ReturnCodes {
  import opened Wrappers
  import Decimal

  /** The range of a C `int`, the type `eval` stores the flag in. */
  type Int32 = k: int | -0x8000_0000 <= k < 0x8000_0000

  /** One constructor per case of the message switch, named after the qpOASES
      constant (without its `RET_` prefix); `Other` is any flag value the switch
      does not list. The numeric values of the named constants belong to qpOASES
      and are not part of this model. */
  datatype ReturnValue =
      SuccessfulReturn
    | DivByZero
    | IndexOutOfBounds
    | InvalidArguments
    | ErrorUndefined
    | WarningUndefined
    | InfoUndefined
    | EwiUndefined
    | AvailableWithLinuxOnly
    | UnknownBug
    | PrintlevelChanged
    | NotYetImplemented
    | IndexlistMustBeReorderd
    | IndexlistExceedsMaxLength
    | IndexlistCorrupted
    | IndexlistOutofbounds
    | IndexlistAddFailed
    | IndexlistIntersectFailed
    | IndexAlreadyOfDesiredStatus
    | AddindexFailed
    | RemoveindexFailed
    | SwapindexFailed
    | NothingToDo
    | SetupBoundFailed
    | SetupConstraintFailed
    | MovingBoundFailed
    | MovingConstraintFailed
    | ShiftingFailed
    | RotatingFailed
    | QpobjectNotSetup
    | QpAlreadyInitialised
    | NoInitWithStandardSolver
    | ResetFailed
    | InitFailed
    | InitFailedTq
    | InitFailedCholesky
    | InitFailedHotstart
    | InitFailedInfeasibility
    | InitFailedUnboundedness
    | InitSuccessful
    | ObtainingWorkingsetFailed
    | SetupWorkingsetFailed
    | SetupAuxiliaryqpFailed
    | NoExternSolver
    | QpUnbounded
    | QpInfeasible
    | QpNotSolved
    | QpSolved
    | UnableToSolveQp
    | InitialisationStarted
    | HotstartFailed
    | HotstartFailedToInit
    | HotstartFailedAsQpNotInitialised
    | IterationStarted
    | ShiftDeterminationFailed
    | StepdirectionDeterminationFailed
    | SteplengthDeterminationFailed
    | OptimalSolutionFound
    | HomotopyStepFailed
    | HotstartStoppedInfeasibility
    | HotstartStoppedUnboundedness
    | WorkingsetUpdateFailed
    | MaxNwsrReached
    | ConstraintsNotSpecified
    | InvalidFactorisationFlag
    | UnableToSaveQpdata
    | StepdirectionFailedTq
    | StepdirectionFailedCholesky
    | CyclingDetected
    | CyclingNotResolved
    | CyclingResolved
    | Stepsize
    | StepsizeNonpositive
    | SetupsubjecttotypeFailed
    | AddconstraintFailed
    | AddconstraintFailedInfeasibility
    | AddboundFailed
    | AddboundFailedInfeasibility
    | RemoveconstraintFailed
    | RemoveboundFailed
    | RemoveFromActiveset
    | AddToActiveset
    | RemoveFromActivesetFailed
    | AddToActivesetFailed
    | ConstraintAlreadyActive
    | AllConstraintsActive
    | LinearlyDependent
    | LinearlyIndependent
    | LiResolved
    | EnsureliFailed
    | EnsureliFailedTq
    | EnsureliFailedNoindex
    | EnsureliFailedCycling
    | BoundAlreadyActive
    | AllBoundsActive
    | ConstraintNotActive
    | BoundNotActive
    | HessianNotSpd
    | HessianIndefinite
    | MatrixShiftFailed
    | MatrixFactorisationFailed
    | PrintIterationFailed
    | NoGlobalMessageOutputfile
    | DisableconstraintsFailed
    | EnableconstraintsFailed
    | AlreadyEnabled
    | AlreadyDisabled
    | NoHessianSpecified
    | UsingRegularisation
    | EpsMustBePositve
    | RegstepsMustBePositve
    | HessianAlreadyRegularised
    | CannotRegulariseIdentity
    | NoRegstepNwsr
    | FewerRegstepsNwsr
    | CholeskyOfZeroHessian
    | ConstraintsAreNotScaled
    | ErrorInConstraintproduct
    | UpdatematricesFailed
    | UpdatematricesFailedAsQpNotSolved
    | UnableToOpenFile
    | UnableToWriteFile
    | UnableToReadFile
    | FiledataInconsistent
    | UnableToAnalyseQproblem
    | NwsrSetToOne
    | BenchmarkAborted
    | UnableToReadBenchmark
    | InitialQpSolved
    | QpSolutionStarted
    | BenchmarkSuccessful
    | Other(code: Int32)

  const UnknownPrefix: string := "Unknown error flag: "
  const UnknownSuffix: string := ". Consult qpOASES documentation."

  /** The default message for a flag the switch does not list. */
  function UnknownFlagMessage(code: int): string {
    UnknownPrefix + Decimal.IntToString(code) + UnknownSuffix
  }

  /** The shape of the default message: the fixed prefix, then the fixed suffix. */
  predicate IsUnknownFlagMessage(msg: string) {
    |msg| >= |UnknownPrefix| + |UnknownSuffix|
    && msg[..|UnknownPrefix|] == UnknownPrefix
    && msg[|msg| - |UnknownSuffix|..] == UnknownSuffix
  }

  /** Reads the numeric flag back out of a default message; None for any other text. */
  function ParseUnknownFlag(msg: string): Option<int> {
    if IsUnknownFlagMessage(msg) then Decimal.ParseInt(msg[|UnknownPrefix|..|msg| - |UnknownSuffix|])
    else None
  }

  /** Texts that the switch returns for more than one code. */
  const StepDirectionFailedText: string := "Determination of step direction failed."
  const InfeasibleText: string := "QP is infeasible."
  const TqAbnormalText: string := "Abnormal termination due to TQ factorisation."

  /** The message of a listed code: the text its case of the switch returns. */
  function ListedMessage(flag: ReturnValue): string
    requires !flag.Other?
  {
    match flag
    case SuccessfulReturn => "Successful return."
    case DivByZero => "Division by zero."
    case IndexOutOfBounds => "Index out of bounds."
    case InvalidArguments => "At least one of the arguments is invalid."
    case ErrorUndefined => "Error number undefined."
    case WarningUndefined => "Warning number undefined."
    case InfoUndefined => "Info number undefined."
    case EwiUndefined => "Error/warning/info number undefined."
    case AvailableWithLinuxOnly => "This function is available under Linux only."
    case UnknownBug => "The error occured is not yet known."
    case PrintlevelChanged => "Print level changed."
    case NotYetImplemented => "Requested function is not yet implemented in this version of qpOASES."
    // Indexlist
    case IndexlistMustBeReorderd => "Index list has to be reordered."
    case IndexlistExceedsMaxLength => "Index list exceeds its maximal physical length."
    case IndexlistCorrupted => "Index list corrupted."
    case IndexlistOutofbounds => "Physical index is out of bounds."
    case IndexlistAddFailed => "Adding indices from another index set failed."
    case IndexlistIntersectFailed => "Intersection with another index set failed."
    // SubjectTo / Bounds / Constraints
    case IndexAlreadyOfDesiredStatus => "Index is already of desired status."
    case AddindexFailed => "Adding index to index set failed."
    case RemoveindexFailed => "Removing index from index set failed."
    case SwapindexFailed => "Cannot swap between different indexsets."
    case NothingToDo => "Nothing to do."
    case SetupBoundFailed => "Setting up bound index failed."
    case SetupConstraintFailed => "Setting up constraint index failed."
    case MovingBoundFailed => "Moving bound between index sets failed."
    case MovingConstraintFailed => "Moving constraint between index sets failed."
    case ShiftingFailed => "Shifting of bounds/constraints failed."
    case RotatingFailed => "Rotating of bounds/constraints failed."
    // QProblem
    case QpobjectNotSetup => "The QP object has not been setup correctly, use another constructor."
    case QpAlreadyInitialised => "QProblem has already been initialized."
    case NoInitWithStandardSolver => "Initialisation via extern QP solver is not yet implemented."
    case ResetFailed => "Reset failed."
    case InitFailed => "Initialisation failed."
    case InitFailedTq => "Initialisation failed due to TQ factorisation."
    case InitFailedCholesky => "Initialisation failed due to Cholesky decomposition."
    case InitFailedHotstart => "Initialisation failed! QP could not be solved!"
    case InitFailedInfeasibility => "Initial QP could not be solved due to infeasibility!"
    case InitFailedUnboundedness => "Initial QP could not be solved due to unboundedness!"
    case InitSuccessful => "Initialisation done."
    case ObtainingWorkingsetFailed => "Failed to obtain working set for auxiliary QP."
    case SetupWorkingsetFailed => "Failed to setup working set for auxiliary QP."
    case SetupAuxiliaryqpFailed => "Failed to setup auxiliary QP for initialized homotopy."
    case NoExternSolver => "No extern QP solver available."
    case QpUnbounded => "QP is unbounded."
    case QpInfeasible => InfeasibleText
    case QpNotSolved => "Problems occured while solving QP with standard solver."
    case QpSolved => "QP successfully solved."
    case UnableToSolveQp => "Problems occured while solving QP."
    case InitialisationStarted => "Starting problem initialisation."
    case HotstartFailed => "Unable to perform homotopy due to internal error."
    case HotstartFailedToInit => "Unable to initialise problem."
    case HotstartFailedAsQpNotInitialised => "Unable to perform homotopy as previous QP is not solved."
    case IterationStarted => "Iteration..."
    case ShiftDeterminationFailed => "Determination of shift of the QP data failed."
    case StepdirectionDeterminationFailed => StepDirectionFailedText
    case SteplengthDeterminationFailed => StepDirectionFailedText
    case OptimalSolutionFound => "Optimal solution of neighbouring QP found."
    case HomotopyStepFailed => "Unable to perform homotopy step."
    case HotstartStoppedInfeasibility => "Premature homotopy termination because QP is infeasible."
    case HotstartStoppedUnboundedness => "Premature homotopy termination because QP is unbounded."
    case WorkingsetUpdateFailed => "Unable to update working sets according to initial guesses."
    case MaxNwsrReached => "Maximum number of working set recalculations performed."
    case ConstraintsNotSpecified => "Problem does comprise constraints! You also have to specify new constraints' bounds."
    case InvalidFactorisationFlag => "Invalid factorisation flag."
    case UnableToSaveQpdata => "Unable to save QP data."
    case StepdirectionFailedTq => TqAbnormalText
    case StepdirectionFailedCholesky => "Abnormal termination due to Cholesky factorisation."
    case CyclingDetected => "Cycling detected."
    case CyclingNotResolved => "Cycling cannot be resolved, QP probably infeasible."
    case CyclingResolved => "Cycling probably resolved."
    case Stepsize => "For displaying performed stepsize."
    case StepsizeNonpositive => "For displaying non-positive stepsize."
    case SetupsubjecttotypeFailed => "Setup of SubjectToTypes failed."
    case AddconstraintFailed => "Addition of constraint to working set failed."
    case AddconstraintFailedInfeasibility => "Addition of constraint to working set failed (due to QP infeasibility)."
    case AddboundFailed => "Addition of bound to working set failed."
    case AddboundFailedInfeasibility => "Addition of bound to working set failed (due to QP infeasibility)."
    case RemoveconstraintFailed => "Removal of constraint from working set failed."
    case RemoveboundFailed => "Removal of bound from working set failed."
    case RemoveFromActiveset => "Removing from active set..."
    case AddToActiveset => "Adding to active set..."
    case RemoveFromActivesetFailed => "Removing from active set failed."
    case AddToActivesetFailed => "Adding to active set failed."
    case ConstraintAlreadyActive => "Constraint is already active."
    case AllConstraintsActive => "All constraints are active, no further constraint can be added."
    case LinearlyDependent => "New bound/constraint is linearly dependent."
    case LinearlyIndependent => "New bound/constraint is linearly independent."
    case LiResolved => "Linear indepence of active contraint matrix successfully resolved."
    case EnsureliFailed => "Failed to ensure linear indepence of active contraint matrix."
    case EnsureliFailedTq => TqAbnormalText
    case EnsureliFailedNoindex => InfeasibleText
    case EnsureliFailedCycling => InfeasibleText
    case BoundAlreadyActive => "Bound is already active."
    case AllBoundsActive => "All bounds are active, no further bound can be added."
    case ConstraintNotActive => "Constraint is not active."
    case BoundNotActive => "Bound is not active."
    case HessianNotSpd => "Projected Hessian matrix not positive definite."
    case HessianIndefinite => "Hessian matrix is indefinite."
    case MatrixShiftFailed => "Unable to update matrices or to transform vectors."
    case MatrixFactorisationFailed => "Unable to calculate new matrix factorisations."
    case PrintIterationFailed => "Unable to print information on current iteration."
    case NoGlobalMessageOutputfile => "No global message output file initialized."
    case DisableconstraintsFailed => "Unable to disbable constraints."
    case EnableconstraintsFailed => "Unable to enbable constraints."
    case AlreadyEnabled => "Bound or constraint is already enabled."
    case AlreadyDisabled => "Bound or constraint is already disabled."
    case NoHessianSpecified => "No Hessian matrix has been specified."
    case UsingRegularisation => "Using regularisation as Hessian matrix is not positive definite."
    case EpsMustBePositve => "Eps for regularisation must be sufficiently positive."
    case RegstepsMustBePositve => "Maximum number of regularisation steps must be non-negative."
    case HessianAlreadyRegularised => "Hessian has been already regularised."
    case CannotRegulariseIdentity => "Identity Hessian matrix cannot be regularised."
    case NoRegstepNwsr => "No additional regularisation step could be performed due to limits."
    case FewerRegstepsNwsr => "Fewer additional regularisation steps have been performed due to limits."
    case CholeskyOfZeroHessian => "Cholesky decomposition of (unregularised) zero Hessian matrix."
    case ConstraintsAreNotScaled => "When defining __MANY_CONSTRAINTS__, l1 norm of each constraint must be not greater than one."
    case ErrorInConstraintproduct => "Error in user-defined constraint product function."
    // SQProblem
    case UpdatematricesFailed => "Unable to update QP matrices."
    case UpdatematricesFailedAsQpNotSolved => "Unable to update matrices as previous QP is not solved."
    // Utils
    case UnableToOpenFile => "Unable to open file."
    case UnableToWriteFile => "Unable to write into file."
    case UnableToReadFile => "Unable to read from file."
    case FiledataInconsistent => "File contains inconsistent data."
    // SolutionAnalysis
    case UnableToAnalyseQproblem => "Unable to analyse (S)QProblem(B) object"
    // Benchmark
    case NwsrSetToOne => "Maximum number of working set changes was set to 1."
    case BenchmarkAborted => "Benchmark aborted."
    case UnableToReadBenchmark => "Unable to read benchmark data."
    case InitialQpSolved => "Initial QP solved."
    case QpSolutionStarted => "Solving QP..."
    case BenchmarkSuccessful => "Benchmark terminated successfully."
  }

  /** getErrorMessage: total over all flags. A listed code gets the text of its case;
      any other flag gets the default message, which has the default's shape and
      from which the flag's number reads back. */
  function ErrorMessage(flag: ReturnValue): (msg: string)
    ensures !flag.Other? ==> msg == ListedMessage(flag)
    ensures flag.Other? ==> IsUnknownFlagMessage(msg) && ParseUnknownFlag(msg) == Some(flag.code)
  {
    if flag.Other? then
      UnknownFlagRecoverable(flag.code);
      UnknownFlagMessage(flag.code)
    else ListedMessage(flag)
  }

  /** The default message names the flag: its number can be read back from the text. */
  lemma UnknownFlagRecoverable(code: int)
    ensures IsUnknownFlagMessage(UnknownFlagMessage(code))
    ensures ParseUnknownFlag(UnknownFlagMessage(code)) == Some(code)
  {
    var msg := UnknownFlagMessage(code);
    var digits := Decimal.IntToString(code);
    assert msg[|UnknownPrefix|..|msg| - |UnknownSuffix|] == digits;
    assert msg[|msg| - |UnknownSuffix|..] == UnknownSuffix;
    Decimal.IntToStringRoundTrip(code);
  }

  /** Two unlisted flags with different numbers get different messages. */
  lemma UnknownMessagesDistinct(j: Int32, k: Int32)
    requires j != k
    ensures ErrorMessage(Other(j)) != ErrorMessage(Other(k))
  {
  }

  /** The acceptance rule of `eval`: exact success, or the working-set budget ran out. */
  predicate IsAcceptable(flag: ReturnValue): (ok: bool)
    ensures ok ==> !flag.Other? && ErrorMessage(flag) == ListedMessage(flag)
    ensures flag == SuccessfulReturn ==> ok
    ensures flag == MaxNwsrReached ==> ok
  {
    flag == SuccessfulReturn || flag == MaxNwsrReached
  }
}

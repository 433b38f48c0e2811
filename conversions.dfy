/** The translations between option values and qpOASES enumerations
    (`BooleanType_to_bool`, `bool_to_BooleanType`, `SubjectToStatus_to_string`,
    `string_to_SubjectToStatus`, `PrintLevel_to_string`, `string_to_PrintLevel`).
    Each native enumeration has the constants the adapter lists and one further
    constructor for any other value the enumeration may hold: the one that reaches
    the `default` branch and raises "not_implemented". */
module Conversions {
  import opened Wrappers

  datatype BooleanType = BtTrue | BtFalse | BtUnlisted(value: int)

  datatype SubjectToStatus =
    | StInactive | StLower | StInfeasibleLower | StInfeasibleUpper | StUndefined
    | StUnlisted(value: int)

  datatype PrintLevel = PlTabular | PlNone | PlLow | PlMedium | PlHigh | PlUnlisted(value: int)

  /** The tokens the conversions accept, in the order the source tests them. */
  const StatusTokens: seq<string> := ["inactive", "lower", "infeasible_lower", "infeasible_upper", "undefined"]
  const PrintLevelTokens: seq<string> := ["tabular", "none", "low", "medium", "high"]

  /** The tokens the option documentation advertises. */
  const DocumentedStatusTokens: seq<string> := ["inactive", "lower", "upper"]
  const DocumentedPrintLevelTokens: seq<string> := ["none", "low", "medium", "high"]

  // ---- BooleanType <-> bool ----

  function BoolToBooleanType(b: bool): (r: BooleanType)
    ensures !r.BtUnlisted?
    ensures r.BtTrue? <==> b
  {
    if b then BtTrue else BtFalse
  }

  /** Defined exactly on the two listed constants, and inverse to BoolToBooleanType there. */
  function BooleanTypeToBool(t: BooleanType): (r: Result<bool>)
    ensures r.Ok? <==> !t.BtUnlisted?
    ensures r.Ok? ==> BoolToBooleanType(r.value) == t
    ensures r.Err? ==> r.error == NotImplemented
  {
    match t
    case BtTrue => Ok(true)
    case BtFalse => Ok(false)
    case BtUnlisted(_) => Err(NotImplemented)
  }

  lemma BoolRoundTrip(b: bool)
    ensures BooleanTypeToBool(BoolToBooleanType(b)) == Ok(b)
  {
  }

  // ---- SubjectToStatus <-> string ----

  /** A listed status renders as one of the accepted tokens; any other value is an error. */
  function SubjectToStatusToString(t: SubjectToStatus): (r: Result<string>)
    ensures r.Ok? <==> !t.StUnlisted?
    ensures r.Ok? ==> r.value in StatusTokens
    ensures r.Err? ==> r.error == NotImplemented
  {
    match t
    case StInactive => Ok("inactive")
    case StLower => Ok("lower")
    case StInfeasibleLower => Ok("infeasible_lower")
    case StInfeasibleUpper => Ok("infeasible_upper")
    case StUndefined => Ok("undefined")
    case StUnlisted(_) => Err(NotImplemented)
  }

  /** Accepts exactly the five tokens, and yields the status that renders back as the token. */
  function StringToSubjectToStatus(s: string): (r: Result<SubjectToStatus>)
    ensures r.Ok? <==> s in StatusTokens
    ensures r.Ok? ==> SubjectToStatusToString(r.value) == Ok(s)
    ensures r.Err? ==> r.error == NotImplemented
  {
    if s == "inactive" then Ok(StInactive)
    else if s == "lower" then Ok(StLower)
    else if s == "infeasible_lower" then Ok(StInfeasibleLower)
    else if s == "infeasible_upper" then Ok(StInfeasibleUpper)
    else if s == "undefined" then Ok(StUndefined)
    else Err(NotImplemented)
  }

  lemma StatusRoundTrip(t: SubjectToStatus)
    requires !t.StUnlisted?
    ensures StringToSubjectToStatus(SubjectToStatusToString(t).value) == Ok(t)
  {
  }

  /** The documentation advertises "upper", which the conversion rejects. */
  lemma DocumentedUpperRejected()
    ensures "upper" in DocumentedStatusTokens
    ensures StringToSubjectToStatus("upper") == Err(NotImplemented)
  {
  }

  // ---- PrintLevel <-> string ----

  function PrintLevelToString(p: PrintLevel): (r: Result<string>)
    ensures r.Ok? <==> !p.PlUnlisted?
    ensures r.Ok? ==> r.value in PrintLevelTokens
    ensures r.Err? ==> r.error == NotImplemented
  {
    match p
    case PlTabular => Ok("tabular")
    case PlNone => Ok("none")
    case PlLow => Ok("low")
    case PlMedium => Ok("medium")
    case PlHigh => Ok("high")
    case PlUnlisted(_) => Err(NotImplemented)
  }

  function StringToPrintLevel(s: string): (r: Result<PrintLevel>)
    ensures r.Ok? <==> s in PrintLevelTokens
    ensures r.Ok? ==> PrintLevelToString(r.value) == Ok(s)
    ensures r.Err? ==> r.error == NotImplemented
  {
    if s == "tabular" then Ok(PlTabular)
    else if s == "none" then Ok(PlNone)
    else if s == "low" then Ok(PlLow)
    else if s == "medium" then Ok(PlMedium)
    else if s == "high" then Ok(PlHigh)
    else Err(NotImplemented)
  }

  lemma PrintLevelRoundTrip(p: PrintLevel)
    requires !p.PlUnlisted?
    ensures StringToPrintLevel(PrintLevelToString(p).value) == Ok(p)
  {
  }

  /** "tabular" is accepted although the documentation lists only the other four. */
  lemma TabularAcceptedUndocumented()
    ensures "tabular" !in DocumentedPrintLevelTokens
    ensures StringToPrintLevel("tabular") == Ok(PlTabular)
    ensures forall s :: s in DocumentedPrintLevelTokens ==> StringToPrintLevel(s).Ok?
  {
  }
}

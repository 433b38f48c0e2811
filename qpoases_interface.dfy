/** The qpOASES adapter of the QP solver plugin (`QpoasesInterface`): option resolution
    and work-vector sizing in `init`, the choice of solver variant in `init_memory`,
    and the cold/warm dispatch and result post-processing of `eval`. The qpOASES
    library itself is an oracle: QpBackend records what it is asked to do and answers
    with whatever reply the environment has placed in its `next` field. */
module Qpoases {
  import opened Wrappers
  import opened ReturnCodes
  import opened Conversions
  import opened WorkLayout
  import opened Buffers

  // ---------------------------------------------------------------------------
  // Options read by `init` and translated by `init_memory`

  /** The values of the adapter's options, as the option registry hands them out.
      `nWSR` and `CPUtime` have no default and are None when unset. */
  datatype OptionValues = OptionValues(
    nWSR: Option<int>,
    cpuTime: Option<real>,
    printLevel: string,
    enableRamping: bool,
    enableFarBounds: bool,
    enableFlippingBounds: bool,
    enableRegularisation: bool,
    enableFullLITests: bool,
    enableNZCTests: bool,
    enableDriftCorrection: int,
    enableCholeskyRefactorisation: int,
    enableEqualities: bool,
    initialStatusBounds: string,
    numRegularisationSteps: int,
    numRefinementSteps: int)

  /** The fields of `qpOASES::Options` the adapter sets from non-real options. */
  datatype SolverOptions = SolverOptions(
    printLevel: PrintLevel,
    enableRamping: BooleanType,
    enableFarBounds: BooleanType,
    enableFlippingBounds: BooleanType,
    enableRegularisation: BooleanType,
    enableFullLITests: BooleanType,
    enableNZCTests: BooleanType,
    enableDriftCorrection: int,
    enableCholeskyRefactorisation: int,
    enableEqualities: BooleanType,
    initialStatusBounds: SubjectToStatus,
    numRegularisationSteps: int,
    numRefinementSteps: int)

  /** The message of a failed `casadi_assert`, naming the condition. */
  const NWSRAssertion: string := "max_nWSR_>=0"
  const CpuTimeAssertion: string := "max_cputime_>0"

  /** `max_nWSR_`: the option when set (which must be non-negative), else 5(n + nc). */
  function ResolveMaxNWSR(nWSR: Option<int>, n: nat, nc: nat): (r: Result<int>)
    ensures nWSR.None? ==> r == Ok(5 * (n + nc))
    ensures nWSR.Some? ==> (r.Ok? <==> nWSR.value >= 0)
    ensures nWSR.Some? && r.Ok? ==> r.value == nWSR.value
    ensures r.Ok? ==> r.value >= 0
    ensures r.Err? ==> r.error == NWSRAssertion
  {
    match nWSR
    case None => Ok(5 * (n + nc))
    case Some(k) => if k >= 0 then Ok(k) else Err(NWSRAssertion)
  }

  /** `max_cputime_`: the option when set (which must be positive), else the sentinel -1. */
  function ResolveMaxCpuTime(cpuTime: Option<real>): (r: Result<real>)
    ensures cpuTime.None? ==> r == Ok(-1.0)
    ensures cpuTime.Some? ==> (r.Ok? <==> cpuTime.value > 0.0)
    ensures cpuTime.Some? && r.Ok? ==> r.value == cpuTime.value
    ensures r.Err? ==> r.error == CpuTimeAssertion
  {
    match cpuTime
    case None => Ok(-1.0)
    case Some(t) => if t > 0.0 then Ok(t) else Err(CpuTimeAssertion)
  }

  /** The CPU-time argument of the qpOASES call: no pointer (None) exactly when the
      budget is not positive, a pointer to the budget otherwise. */
  function CpuTimeArgument(maxCpuTime: real): (r: Option<real>)
    ensures r.None? <==> maxCpuTime <= 0.0
    ensures r.Some? ==> r.value == maxCpuTime
  {
    if maxCpuTime <= 0.0 then None else Some(maxCpuTime)
  }

  /** The sentinel round trip: a resolved CPU-time budget reaches qpOASES as exactly the
      option the user set, and as no limit at all when the option is unset. */
  lemma CpuTimeSentinel(cpuTime: Option<real>)
    requires ResolveMaxCpuTime(cpuTime).Ok?
    ensures CpuTimeArgument(ResolveMaxCpuTime(cpuTime).value) == cpuTime
  {
  }

  /** The option translation of `init_memory`: it succeeds exactly when both string
      options are accepted tokens, and each native field then converts back to the
      option it came from. */
  function TranslateOptions(o: OptionValues): (r: Result<SolverOptions>)
    ensures r.Ok? <==> o.printLevel in PrintLevelTokens && o.initialStatusBounds in StatusTokens
    ensures r.Err? ==> r.error == NotImplemented
    ensures r.Ok? ==> PrintLevelToString(r.value.printLevel) == Ok(o.printLevel)
    ensures r.Ok? ==> SubjectToStatusToString(r.value.initialStatusBounds) == Ok(o.initialStatusBounds)
    ensures r.Ok? ==>
      && BooleanTypeToBool(r.value.enableRamping) == Ok(o.enableRamping)
      && BooleanTypeToBool(r.value.enableFarBounds) == Ok(o.enableFarBounds)
      && BooleanTypeToBool(r.value.enableFlippingBounds) == Ok(o.enableFlippingBounds)
      && BooleanTypeToBool(r.value.enableRegularisation) == Ok(o.enableRegularisation)
      && BooleanTypeToBool(r.value.enableFullLITests) == Ok(o.enableFullLITests)
      && BooleanTypeToBool(r.value.enableNZCTests) == Ok(o.enableNZCTests)
      && BooleanTypeToBool(r.value.enableEqualities) == Ok(o.enableEqualities)
    ensures r.Ok? ==>
      && r.value.enableDriftCorrection == o.enableDriftCorrection
      && r.value.enableCholeskyRefactorisation == o.enableCholeskyRefactorisation
      && r.value.numRegularisationSteps == o.numRegularisationSteps
      && r.value.numRefinementSteps == o.numRefinementSteps
  {
    var pl := StringToPrintLevel(o.printLevel);
    if pl.Err? then Err(pl.error)
    else
      var st := StringToSubjectToStatus(o.initialStatusBounds);
      if st.Err? then Err(st.error)
      else
        BoolRoundTrip(o.enableRamping);
        BoolRoundTrip(o.enableFarBounds);
        BoolRoundTrip(o.enableFlippingBounds);
        BoolRoundTrip(o.enableRegularisation);
        BoolRoundTrip(o.enableFullLITests);
        BoolRoundTrip(o.enableNZCTests);
        BoolRoundTrip(o.enableEqualities);
        Ok(SolverOptions(
          pl.value,
          BoolToBooleanType(o.enableRamping),
          BoolToBooleanType(o.enableFarBounds),
          BoolToBooleanType(o.enableFlippingBounds),
          BoolToBooleanType(o.enableRegularisation),
          BoolToBooleanType(o.enableFullLITests),
          BoolToBooleanType(o.enableNZCTests),
          o.enableDriftCorrection,
          o.enableCholeskyRefactorisation,
          BoolToBooleanType(o.enableEqualities),
          st.value,
          o.numRegularisationSteps,
          o.numRefinementSteps))
  }

  // ---------------------------------------------------------------------------
  // The qpOASES solver object, as an oracle

  /** `qpOASES::QProblemB` (bounds only) or `qpOASES::SQProblem` (general). */
  datatype Variant = QProblemB | SQProblem

  /** The variant `init_memory` creates: bounds only exactly when there are no constraints. */
  function VariantFor(nc: nat): (v: Variant)
    ensures v == QProblemB <==> nc == 0
  {
    if nc == 0 then QProblemB else SQProblem
  }

  /** The problem data handed to an `init` or `hotstart` call: the bound-only variant
      is given no constraint matrix and no constraint bounds. */
  datatype Problem =
    | BoundedProblem(h: seq<real>, g: seq<real>, lb: seq<real>, ub: seq<real>)
    | ConstrainedProblem(h: seq<real>, g: seq<real>, a: seq<real>, lb: seq<real>, ub: seq<real>,
                         lbA: seq<real>, ubA: seq<real>)

  datatype BackendCall =
    | InitCall(problem: Problem, nWSR: int, cpuTime: Option<real>)
    | HotstartCall(problem: Problem, nWSR: int, cpuTime: Option<real>)
    | ResetCall

  /** What qpOASES reports for a solve: the flag, then what `getObjVal`,
      `getPrimalSolution` and `getDualSolution` return afterwards. */
  datatype Reply = Reply(flag: ReturnValue, objVal: real, primal: seq<real>, dual: seq<real>)

  class QpBackend {
    const variant: Variant
    const nV: nat
    const nC: nat
    /** The options passed with `setOptions`, if any. */
    var options: Option<SolverOptions>
    /** Every `init`, `hotstart` and `reset` this object has received, in order. */
    var calls: seq<BackendCall>
    /** The reply qpOASES gives to the next solve; supplied by the environment. */
    var next: Reply
    /** The reply of the most recent solve, which the getters read. */
    var solution: Reply

    predicate Fits(r: Reply) {
      |r.primal| == nV && |r.dual| == nV + nC
    }

    predicate Valid()
      reads this
    {
      Fits(next) && Fits(solution) && (variant == QProblemB ==> nC == 0)
    }

    /** `new qpOASES::QProblemB(n)`. Until the environment supplies one, the reply is a
        zero placeholder. */
    constructor BoundsOnly(n: nat)
      ensures Valid() && variant == QProblemB && nV == n && nC == 0
      ensures options == None && calls == []
    {
      variant, nV, nC := QProblemB, n, 0;
      options, calls := None, [];
      next := Reply(SuccessfulReturn, 0.0, seq(n, _ => 0.0), seq(n, _ => 0.0));
      solution := next;
    }

    /** `new qpOASES::SQProblem(n, nc)`. */
    constructor General(n: nat, nc: nat)
      ensures Valid() && variant == SQProblem && nV == n && nC == nc
      ensures options == None && calls == []
    {
      variant, nV, nC := SQProblem, n, nc;
      options, calls := None, [];
      next := Reply(SuccessfulReturn, 0.0, seq(n, _ => 0.0), seq(n + nc, _ => 0.0));
      solution := next;
    }

    method SetOptions(o: SolverOptions)
      modifies this`options
      ensures options == Some(o)
    {
      options := Some(o);
    }

    /** `init`: the problem form must match the variant. */
    method Init(p: Problem, nWSR: int, cpuTime: Option<real>) returns (flag: ReturnValue)
      requires Valid() && (p.BoundedProblem? <==> variant == QProblemB)
      modifies this`calls, this`solution
      ensures Valid()
      ensures calls == old(calls) + [InitCall(p, nWSR, cpuTime)]
      ensures solution == next && flag == next.flag
    {
      calls := calls + [InitCall(p, nWSR, cpuTime)];
      solution := next;
      flag := solution.flag;
    }

    /** `hotstart` of the general variant, with new matrices and bounds. */
    method Hotstart(p: Problem, nWSR: int, cpuTime: Option<real>) returns (flag: ReturnValue)
      requires Valid() && variant == SQProblem && p.ConstrainedProblem?
      modifies this`calls, this`solution
      ensures Valid()
      ensures calls == old(calls) + [HotstartCall(p, nWSR, cpuTime)]
      ensures solution == next && flag == next.flag
    {
      calls := calls + [HotstartCall(p, nWSR, cpuTime)];
      solution := next;
      flag := solution.flag;
    }

    method Reset()
      modifies this`calls
      ensures calls == old(calls) + [ResetCall]
    {
      calls := calls + [ResetCall];
    }

    method GetObjVal() returns (v: real)
      ensures v == solution.objVal
    {
      v := solution.objVal;
    }

    method GetPrimalSolution(x: array<real>)
      requires Valid() && x.Length == nV
      modifies x
      ensures x[..] == solution.primal
    {
      CopyIn(solution.primal, x, 0);
      assert x[..] == x[0..nV];
    }

    /** Writes the nV + nC multipliers at `w[off..]`, leaving the rest of `w` alone. */
    method GetDualSolution(w: array<real>, off: nat)
      requires Valid() && off + nV + nC <= w.Length
      modifies w
      ensures w[off..off + nV + nC] == solution.dual
      ensures forall i :: 0 <= i < w.Length && !(off <= i < off + nV + nC) ==> w[i] == old(w[i])
    {
      CopyIn(solution.dual, w, off);
    }
  }

  // ---------------------------------------------------------------------------
  // Cold and warm dispatch of `eval`

  datatype Path = ColdInit | ResetAndInit | Hotstart

  /** The path an evaluation takes: a cold `init` until the memory has been called once;
      afterwards `hotstart` with constraints, and `reset` then `init` without. */
  function DispatchPath(calledOnce: bool, nc: nat): (p: Path)
    ensures p == ColdInit <==> !calledOnce
    ensures p == Hotstart <==> calledOnce && nc > 0
    ensures p == ResetAndInit <==> calledOnce && nc == 0
  {
    if !calledOnce then ColdInit else if nc == 0 then ResetAndInit else Hotstart
  }

  /** The warm path of an instance with nc constraints: the one every evaluation after
      the first takes. */
  function WarmPath(nc: nat): (p: Path)
    ensures p == DispatchPath(true, nc)
    ensures p != ColdInit
  {
    if nc == 0 then ResetAndInit else Hotstart
  }

  /** The calls a path makes on the solver object: every path ends in one solve that
      receives the problem, the working-set budget and the CPU-time argument; only the
      bound-only warm path resets first, and only the general warm path hot-starts. */
  function CallsFor(path: Path, p: Problem, nWSR: int, cpuTime: Option<real>): (calls: seq<BackendCall>)
    ensures |calls| == (if path == ResetAndInit then 2 else 1)
    ensures path == ResetAndInit ==> calls[0] == ResetCall
    ensures !calls[|calls| - 1].ResetCall?
    ensures calls[|calls| - 1].HotstartCall? <==> path == Hotstart
    ensures calls[|calls| - 1].problem == p
    ensures calls[|calls| - 1].nWSR == nWSR && calls[|calls| - 1].cpuTime == cpuTime
  {
    match path
    case ColdInit => [InitCall(p, nWSR, cpuTime)]
    case ResetAndInit => [ResetCall, InitCall(p, nWSR, cpuTime)]
    case Hotstart => [HotstartCall(p, nWSR, cpuTime)]
  }

  /** The paths of k consecutive evaluations on a memory whose flag starts at `calledOnce`;
      every evaluation leaves the flag set. */
  function Trace(k: nat, calledOnce: bool, nc: nat): (t: seq<Path>)
    ensures |t| == k
    decreases k
  {
    if k == 0 then [] else [DispatchPath(calledOnce, nc)] + Trace(k - 1, true, nc)
  }

  /** Once the flag is set, every evaluation takes the warm path. */
  lemma {:induction false} WarmTrace(k: nat, nc: nat)
    ensures forall i :: 0 <= i < k ==> Trace(k, true, nc)[i] == WarmPath(nc)
    decreases k
  {
    if k > 0 {
      WarmTrace(k - 1, nc);
      var t := Trace(k, true, nc);
      assert t == [WarmPath(nc)] + Trace(k - 1, true, nc);
      forall i | 0 < i < k
        ensures t[i] == WarmPath(nc)
      {
        assert t[i] == Trace(k - 1, true, nc)[i - 1];
      }
    }
  }

  /** After `init_memory` the first evaluation is the only cold one. */
  lemma TraceAfterInitMemory(k: nat, nc: nat)
    ensures k > 0 ==> Trace(k, false, nc)[0] == ColdInit
    ensures forall i :: 0 < i < k ==> Trace(k, false, nc)[i] == WarmPath(nc)
  {
    if k > 0 {
      WarmTrace(k - 1, nc);
      var t := Trace(k, false, nc);
      forall i | 0 < i < k
        ensures t[i] == WarmPath(nc)
      {
        assert t[i] == Trace(k - 1, true, nc)[i - 1];
      }
    }
  }

  /** A bound-only instance never hot-starts, whatever the state of its memory. */
  lemma BoundsOnlyNeverHotstarts(k: nat, calledOnce: bool)
    ensures forall i :: 0 <= i < k ==> Trace(k, calledOnce, 0)[i] != Hotstart
  {
    if k > 0 {
      WarmTrace(k - 1, 0);
      var t := Trace(k, calledOnce, 0);
      forall i | 0 < i < k
        ensures t[i] != Hotstart
      {
        assert t[i] == Trace(k - 1, true, 0)[i - 1];
      }
    }
  }

  // ---------------------------------------------------------------------------
  // Per-instance memory and the adapter

  /** `QpoasesMemory`: the solver object of one instance and whether it has been called. */
  class QpoasesMemory {
    var qp: QpBackend?
    var calledOnce: bool

    /** The memory starts without a solver object; `called_once` is left to `init_memory`. */
    constructor ()
      ensures qp == null
    {
      qp := null;
    }
  }

  /** The dense numeric arguments of `eval` (H and A already densified). */
  datatype Arguments = Arguments(
    h: seq<real>, a: seq<real>, g: seq<real>,
    lbx: seq<real>, ubx: seq<real>, lba: seq<real>, uba: seq<real>)

  predicate Separate(p: array?<real>, q: array?<real>) {
    p == null || q == null || p != q
  }

  class QpoasesInterface {
    /** Number of variables and of linear constraints (`n_`, `nc_`). */
    const n: nat
    const nc: nat
    const opts: OptionValues
    var maxNWSR: int
    var maxCpuTime: real
    /** The work-vector length requested so far with `alloc_w`. */
    var szW: nat
    ghost var initialised: bool

    constructor (n: nat, nc: nat, opts: OptionValues)
      ensures this.n == n && this.nc == nc && this.opts == opts
      ensures szW == 0 && !initialised
    {
      this.n, this.nc, this.opts := n, nc, opts;
      maxNWSR, maxCpuTime, szW := 0, 0.0, 0;
      initialised := false;
    }

    /** What `eval` needs of `init`: it succeeded, and reserved at least the budget. */
    ghost predicate Ready()
      reads this
    {
      initialised && szW >= Budget(n, nc)
    }

    /** What `eval` needs of `init_memory`: a solver object of the right variant and size. */
    predicate MemoryReady(m: QpoasesMemory)
      reads m, m.qp
    {
      m.qp != null && m.qp.Valid() && m.qp.variant == VariantFor(nc) && m.qp.nV == n && m.qp.nC == nc
    }

    predicate ArgumentsFit(arg: Arguments) {
      |arg.h| == n * n && |arg.a| == n * nc && |arg.g| == n &&
      |arg.lbx| == n && |arg.ubx| == n && |arg.lba| == nc && |arg.uba| == nc
    }

    /** The data the solver object receives: the bound-only form, without A and the
        constraint bounds, exactly when nc == 0. */
    function ProblemOf(arg: Arguments): (p: Problem)
      ensures p.BoundedProblem? <==> nc == 0
      ensures p.h == arg.h && p.g == arg.g && p.lb == arg.lbx && p.ub == arg.ubx
      ensures p.ConstrainedProblem? ==> p.a == arg.a && p.lbA == arg.lba && p.ubA == arg.uba
    {
      if nc == 0 then BoundedProblem(arg.h, arg.g, arg.lbx, arg.ubx)
      else ConstrainedProblem(arg.h, arg.g, arg.a, arg.lbx, arg.ubx, arg.lba, arg.uba)
    }

    /** `alloc_w(sz, true)`: reserves sz more entries of persistent work vector. */
    method AllocW(sz: nat)
      modifies this`szW
      ensures szW == old(szW) + sz
    {
      szW := szW + sz;
    }

    /** `init`: resolves `nWSR` and `CPUtime`, then reserves the eight work slices.
        A failed assertion leaves the offending value in its field and stops there. */
    method Init() returns (r: Outcome)
      modifies this
      ensures maxNWSR == (if opts.nWSR.Some? then opts.nWSR.value else 5 * (n + nc))
      ensures ResolveMaxNWSR(opts.nWSR, n, nc).Err? ==>
        r == Fail(NWSRAssertion) && maxCpuTime == old(maxCpuTime) && szW == old(szW) && initialised == old(initialised)
      ensures ResolveMaxNWSR(opts.nWSR, n, nc).Ok? ==>
        maxCpuTime == (if opts.cpuTime.Some? then opts.cpuTime.value else -1.0)
      ensures ResolveMaxNWSR(opts.nWSR, n, nc).Ok? && ResolveMaxCpuTime(opts.cpuTime).Err? ==>
        r == Fail(CpuTimeAssertion) && szW == old(szW) && initialised == old(initialised)
      ensures r.Pass? <==> ResolveMaxNWSR(opts.nWSR, n, nc).Ok? && ResolveMaxCpuTime(opts.cpuTime).Ok?
      ensures r.Pass? ==> szW == old(szW) + Budget(n, nc) && Ready()
    {
      if opts.nWSR.Some? {
        maxNWSR := opts.nWSR.value;
        if !(maxNWSR >= 0) {
          return Fail(NWSRAssertion);
        }
      } else {
        maxNWSR := 5 * (n + nc);
      }

      if opts.cpuTime.Some? {
        maxCpuTime := opts.cpuTime.value;
        if !(maxCpuTime > 0.0) {
          return Fail(CpuTimeAssertion);
        }
      } else {
        maxCpuTime := -1.0;
      }

      AllocW(n * n);   // h
      AllocW(n * nc);  // a
      AllocW(n);       // g
      AllocW(n);       // lbx
      AllocW(n);       // ubx
      AllocW(nc);      // lba
      AllocW(nc);      // uba
      AllocW(n + nc);  // dual
      LayoutOffsets(n, nc);
      initialised := true;
      r := Pass;
    }

    /** `init_memory`: clears `called_once`, replaces the solver object by a fresh one of
        the variant nc dictates, and passes it the translated options. An option that
        does not translate raises after the object has been replaced. */
    method InitMemory(m: QpoasesMemory) returns (r: Outcome)
      modifies m
      ensures !m.calledOnce
      ensures m.qp != null && fresh(m.qp) && MemoryReady(m) && m.qp.calls == []
      ensures r.Pass? <==> TranslateOptions(opts).Ok?
      ensures r.Pass? ==> m.qp.options == Some(TranslateOptions(opts).value)
      ensures r.Fail? ==> m.qp.options == None && r.error == NotImplemented
    {
      m.calledOnce := false;
      var qp: QpBackend;
      if nc == 0 {
        qp := new QpBackend.BoundsOnly(n);
      } else {
        qp := new QpBackend.General(n, nc);
      }
      m.qp := qp;
      var t := TranslateOptions(opts);
      if t.Err? {
        return Fail(t.error);
      }
      qp.SetOptions(t.value);
      r := Pass;
    }

    /** The first part of `eval`: densify H and A and copy the vectors into the first
        seven slices of the work vector, advancing a bump pointer. The solver object is
        handed the contents of those slices. */
    method LoadWork(arg: Arguments, w: array<real>) returns (p: Problem, next: nat)
      requires ArgumentsFit(arg) && w.Length >= Budget(n, nc)
      modifies w
      ensures p == ProblemOf(arg)
      ensures next == Layout(n, nc)[Dual].start && next + n + nc <= w.Length
      ensures w[..next] == arg.h + arg.a + arg.g + arg.lbx + arg.ubx + arg.lba + arg.uba
      ensures forall i :: next <= i < w.Length ==> w[i] == old(w[i])
    {
      ghost var total := |arg.h| + |arg.a| + |arg.g| + |arg.lbx| + |arg.ubx| + |arg.lba| + |arg.uba|;
      assert total + n + nc <= w.Length by { LayoutOffsets(n, nc); }
      var hs, as_, gs, lbs, ubs, lbAs, ubAs;
      var ptr: nat := 0;
      assert w[..0] == [];
      hs, ptr := Push(arg.h, w, ptr, []);
      as_, ptr := Push(arg.a, w, ptr, arg.h);
      gs, ptr := Push(arg.g, w, ptr, arg.h + arg.a);
      lbs, ptr := Push(arg.lbx, w, ptr, arg.h + arg.a + arg.g);
      ubs, ptr := Push(arg.ubx, w, ptr, arg.h + arg.a + arg.g + arg.lbx);
      lbAs, ptr := Push(arg.lba, w, ptr, arg.h + arg.a + arg.g + arg.lbx + arg.ubx);
      ubAs, ptr := Push(arg.uba, w, ptr, arg.h + arg.a + arg.g + arg.lbx + arg.ubx + arg.lba);
      if nc == 0 {
        p := BoundedProblem(hs, gs, lbs, ubs);
      } else {
        p := ConstrainedProblem(hs, gs, as_, lbs, ubs, lbAs, ubAs);
      }
      next := ptr;
      assert next == Layout(n, nc)[Dual].start by { LayoutOffsets(n, nc); }
    }

    /** The dispatch of `eval`: cold `init` while the memory has not been called, then
        `hotstart` (constraints) or `reset` + `init` (bounds only). The flag is set
        before the result is inspected. */
    method Solve(m: QpoasesMemory, p: Problem) returns (flag: ReturnValue)
      requires MemoryReady(m) && (p.BoundedProblem? <==> nc == 0)
      modifies m, m.qp
      ensures m.qp == old(m.qp) && MemoryReady(m) && m.calledOnce
      ensures m.qp.next == old(m.qp.next) && m.qp.options == old(m.qp.options)
      ensures m.qp.calls ==
        old(m.qp.calls) + CallsFor(DispatchPath(old(m.calledOnce), nc), p, maxNWSR, CpuTimeArgument(maxCpuTime))
      ensures flag == m.qp.next.flag && m.qp.solution == m.qp.next
    {
      var nWSR := maxNWSR;
      var cputime := maxCpuTime;
      var cputimeArg := if cputime <= 0.0 then None else Some(cputime);
      if !m.calledOnce {
        flag := m.qp.Init(p, nWSR, cputimeArg);
        m.calledOnce := true;
      } else {
        if nc == 0 {
          m.qp.Reset();
          flag := m.qp.Init(p, nWSR, cputimeArg);
        } else {
          flag := m.qp.Hotstart(p, nWSR, cputimeArg);
        }
      }
    }

    /** The solve part of `eval`: load the work vector, then dispatch. */
    method LoadAndSolve(m: QpoasesMemory, arg: Arguments, w: array<real>) returns (flag: ReturnValue, ptr: nat)
      requires Ready() && MemoryReady(m) && ArgumentsFit(arg) && w.Length >= szW
      modifies m, m.qp, w
      ensures m.qp == old(m.qp) && MemoryReady(m) && m.calledOnce
      ensures m.qp.options == old(m.qp.options) && m.qp.next == old(m.qp.next)
      ensures m.qp.solution == old(m.qp.next) && flag == old(m.qp.next).flag
      ensures m.qp.calls == old(m.qp.calls) +
        CallsFor(DispatchPath(old(m.calledOnce), nc), ProblemOf(arg), maxNWSR, CpuTimeArgument(maxCpuTime))
      ensures ptr + n + nc <= w.Length
    {
      var p;
      p, ptr := LoadWork(arg, w);
      flag := Solve(m, p);
    }

    /** `getDualSolution` into the dual slice, then `casadi_scal` by -1: the slice holds
        the negated bound multipliers followed by the negated constraint multipliers. */
    method NegatedDuals(qp: QpBackend, w: array<real>, off: nat)
      requires qp.Valid() && qp.nV == n && qp.nC == nc && off + n + nc <= w.Length
      modifies w
      ensures w[off..off + n] == Negated(qp.solution.dual[..n])
      ensures w[off + n..off + n + nc] == Negated(qp.solution.dual[n..])
      ensures forall i :: 0 <= i < w.Length && !(off <= i < off + n + nc) ==> w[i] == old(w[i])
    {
      ghost var d := qp.solution.dual;
      qp.GetDualSolution(w, off);
      Scale(w, off, n + nc, -1.0);
      ghost var negated := w[off..off + n + nc];
      assert negated == Negated(d);
      NegatedSplit(d, n);
      assert w[off..off + n] == negated[..n];
      assert w[off + n..off + n + nc] == negated[n..];
    }

    /** The multiplier part of `eval`: the bound part of the negated multipliers goes to
        `lam_x`, the constraint part to `lam_a`, each only if wanted. */
    method FetchDuals(qp: QpBackend, w: array<real>, off: nat, lamX: array?<real>, lamA: array?<real>)
      requires qp.Valid() && qp.nV == n && qp.nC == nc && off + n + nc <= w.Length
      requires lamX != null ==> lamX.Length == n
      requires lamA != null ==> lamA.Length == nc
      requires Separate(lamX, w) && Separate(lamA, w) && Separate(lamX, lamA)
      modifies w, lamX, lamA
      ensures lamX != null ==> lamX[..] == Negated(qp.solution.dual[..n])
      ensures lamA != null ==> lamA[..] == Negated(qp.solution.dual[n..])
    {
      NegatedDuals(qp, w, off);
      if lamX != null {
        CopyOut(w, off, n, lamX);
      }
      if lamA != null {
        CopyOut(w, off + n, nc, lamA);
      }
    }

    /** The output part of `eval` after an accepted flag: each output that is wanted
        receives its part of the most recent solve. */
    method WriteOutputs(qp: QpBackend, cost: array?<real>, x: array?<real>, lamX: array?<real>,
                        lamA: array?<real>, w: array<real>, ptr: nat)
      requires qp.Valid() && qp.nV == n && qp.nC == nc && ptr + n + nc <= w.Length
      requires cost != null ==> cost.Length == 1
      requires x != null ==> x.Length == n
      requires lamX != null ==> lamX.Length == n
      requires lamA != null ==> lamA.Length == nc
      requires Separate(cost, w) && Separate(x, w) && Separate(lamX, w) && Separate(lamA, w)
      requires Separate(cost, x) && Separate(cost, lamX) && Separate(cost, lamA)
      requires Separate(x, lamX) && Separate(x, lamA) && Separate(lamX, lamA)
      modifies w, cost, x, lamX, lamA
      ensures cost != null ==> cost[0] == qp.solution.objVal
      ensures x != null ==> x[..] == qp.solution.primal
      ensures lamX != null ==> lamX[..] == Negated(qp.solution.dual[..n])
      ensures lamA != null ==> lamA[..] == Negated(qp.solution.dual[n..])
    {
      if cost != null {
        var v := qp.GetObjVal();
        cost[0] := v;
      }
      if x != null {
        qp.GetPrimalSolution(x);
      }
      if lamX != null || lamA != null {
        var dual := ptr;
        FetchDuals(qp, w, dual, lamX, lamA);
      }
    }

    /** `eval`: load the work vector, run the dispatch, reject every flag but success and
        an exhausted working-set budget, then write the objective, the primal solution and
        the negated multipliers, split into bound (first n) and constraint (next nc) parts.
        A null output is skipped; the multipliers are fetched only if one of them is wanted. */
    method Eval(m: QpoasesMemory, arg: Arguments,
                cost: array?<real>, x: array?<real>, lamX: array?<real>, lamA: array?<real>,
                w: array<real>) returns (r: Outcome)
      requires Ready() && MemoryReady(m) && ArgumentsFit(arg) && w.Length >= szW
      requires cost != null ==> cost.Length == 1
      requires x != null ==> x.Length == n
      requires lamX != null ==> lamX.Length == n
      requires lamA != null ==> lamA.Length == nc
      requires Separate(cost, w) && Separate(x, w) && Separate(lamX, w) && Separate(lamA, w)
      requires Separate(cost, x) && Separate(cost, lamX) && Separate(cost, lamA)
      requires Separate(x, lamX) && Separate(x, lamA) && Separate(lamX, lamA)
      modifies m, m.qp, w, cost, x, lamX, lamA
      ensures m.qp == old(m.qp) && MemoryReady(m) && m.calledOnce
      ensures m.qp.options == old(m.qp.options) && m.qp.next == old(m.qp.next)
      ensures m.qp.solution == old(m.qp.next)
      ensures m.qp.calls == old(m.qp.calls) +
        CallsFor(DispatchPath(old(m.calledOnce), nc), ProblemOf(arg), maxNWSR, CpuTimeArgument(maxCpuTime))
      ensures r.Fail? <==> !IsAcceptable(old(m.qp.next).flag)
      ensures r.Fail? ==> r.error == "qpOASES failed: " + ErrorMessage(old(m.qp.next).flag)
      ensures r.Fail? ==>
        && (cost != null ==> cost[..] == old(cost[..]))
        && (x != null ==> x[..] == old(x[..]))
        && (lamX != null ==> lamX[..] == old(lamX[..]))
        && (lamA != null ==> lamA[..] == old(lamA[..]))
      ensures r.Pass? ==>
        && (cost != null ==> cost[0] == old(m.qp.next).objVal)
        && (x != null ==> x[..] == old(m.qp.next).primal)
        && (lamX != null ==> lamX[..] == Negated(old(m.qp.next).dual[..n]))
        && (lamA != null ==> lamA[..] == Negated(old(m.qp.next).dual[n..]))
    {
      var flag, ptr := LoadAndSolve(m, arg, w);
      if !IsAcceptable(flag) {
        return Fail("qpOASES failed: " + ErrorMessage(flag));
      }
      WriteOutputs(m.qp, cost, x, lamX, lamA, w, ptr);
      r := Pass;
    }
  }
}

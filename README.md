# qpOASES adapter of the CasADi QP solver plugin, in Dafny

This project models `QpoasesInterface`, the adapter that lets CasADi's QP-solver front end
(`Qpsol`) drive the qpOASES active-set library. The model covers four parts of the adapter:

- **Option resolution and work-vector budget in `init`.** `nWSR` and `CPUtime` are resolved,
  with their defaults and assertions. The eight `alloc_w` requests are stated, and the model
  proves they cover the bump-pointer layout that `eval` carves, on unbounded integers (see
  "Left out" for 32-bit overflow).
- **The per-instance state machine.** `init_memory` clears `called_once`. It creates a
  bound-only `QProblemB` when there are no linear constraints and an `SQProblem` otherwise,
  then passes it the translated options. `eval` does a cold `init` on the first call. Later
  calls do a `hotstart` when there are constraints, or a `reset` followed by `init` when there
  are none.
- **Post-processing in `eval`.** Only `SUCCESSFUL_RETURN` and `RET_MAX_NWSR_REACHED` are
  accepted. Any other flag raises `"qpOASES failed: "` plus the flag's message. The objective
  and primal solution are copied out. The multipliers are negated and split into the bound part
  (`lam_x`, first n entries) and the constraint part (`lam_a`, next nc entries).
- **The translation layer.** This covers the six `*_to_*` conversions between CasADi option
  values and qpOASES enumerations, and `getErrorMessage`: 131 listed messages, plus an
  "Unknown error flag" text for anything else.

The qpOASES library is outside the model. `QpBackend` stands in for its solver objects. It
records every `init`, `hotstart` and `reset` it receives, in order. It answers each solve with
the reply in its `next` field, which the environment supplies: the flag, the objective, the
primal vector and the dual vector. So the contracts of `Eval` state exactly which calls the
adapter makes, with which data, and how it turns the library's reply into outputs.

Modules:

- `Wrappers`: the `Option`, `Result` and `Outcome` types. An exception raised by the adapter
  is an `Err` or `Fail` carrying its message.
- `Decimal`: how `operator<<` writes an `int`, and reading it back.
- `ReturnCodes`: the `returnValue` constants, `getErrorMessage`, and the acceptance rule.
- `Conversions`: the six conversions.
- `WorkLayout`: the `alloc_w` requests and the bump-pointer layout.
- `Buffers`: `casadi_copy`, `casadi_scal` and negation, on arrays.
- `Qpoases`: the options, the solver-object oracle, and the `QpoasesMemory` and
  `QpoasesInterface` classes.

Where the documentation and the code disagree, the model follows the code:

- **`initialStatusBounds`.** The option's documentation offers `upper`, but
  `string_to_SubjectToStatus` rejects `upper` with "not_implemented"
  (`Conversions.DocumentedUpperRejected`).
- **`printLevel`.** The documentation offers `none|low|medium|high`, but `tabular` is also
  accepted (`Conversions.TabularAcceptedUndocumented`).
- **Duplicate messages.** Several return codes share one message text.
  `RET_STEPDIRECTION_DETERMINATION_FAILED` and `RET_STEPLENGTH_DETERMINATION_FAILED` both map
  to "Determination of step direction failed.". `RET_STEPDIRECTION_FAILED_TQ` and
  `RET_ENSURELI_FAILED_TQ` both map to "Abnormal termination due to TQ factorisation.".
  `RET_QP_INFEASIBLE`, `RET_ENSURELI_FAILED_NOINDEX` and `RET_ENSURELI_FAILED_CYCLING` all map
  to "QP is infeasible.". So the model does not claim
  that listed messages are pairwise distinct. The shared texts are single named constants.
- **Bound-only problems.** The bound-only variant is never hot-started. After the first call
  it is reset and initialised again (`Qpoases.BoundsOnlyNeverHotstarts`).
- **`called_once`.** The flag is set before the return flag is checked, so an evaluation that
  raises still leaves it set. `Qpoases.Trace` and its lemmas are not a separate model of this
  state: they compose two postconditions of `Eval` over k calls. Those postconditions are that the
  calls follow `DispatchPath` of the current flag, and that the flag is set afterwards.

## Model

All source cells refer to `casadi/interfaces/qpoases/qpoases_interface.cpp`.

| member | source | states |
|---|---|---|
| Decimal.NatToString | casadi/interfaces/qpoases/qpoases_interface.cpp:561 | the decimal text of a natural number is non-empty, all digits, and has no leading zero |
| Decimal.IntToString | casadi/interfaces/qpoases/qpoases_interface.cpp:561 | `<<` of an int is non-empty and starts with '-' exactly for negatives; the rest is digits |
| Decimal.ParseNatToString | casadi/interfaces/qpoases/qpoases_interface.cpp:561 | reading the digits of n back gives n (induction on n) |
| Decimal.IntToStringRoundTrip | casadi/interfaces/qpoases/qpoases_interface.cpp:561 | the text written for any integer reads back as that integer |
| Decimal.IntToStringInjective | casadi/interfaces/qpoases/qpoases_interface.cpp:561 | different integers are written differently |
| ReturnCodes.ErrorMessage | casadi/interfaces/qpoases/qpoases_interface.cpp:284-563 | a listed flag gets its case's message; any other flag gets "Unknown error flag: " + the flag + ". Consult qpOASES documentation.", from which the flag can be read back |
| ReturnCodes.ListedMessage | casadi/interfaces/qpoases/qpoases_interface.cpp:286-556 | one case per entry of the switch, each with that entry's text; the texts shared by several flags are single named constants; it has no contract, see the ReturnCodes.ErrorMessage line under Left out |
| ReturnCodes.UnknownFlagMessage | casadi/interfaces/qpoases/qpoases_interface.cpp:559-562 | the default text: prefix, the flag in decimal, suffix; its properties are stated by UnknownFlagRecoverable and UnknownMessagesDistinct |
| ReturnCodes.IsAcceptable | casadi/interfaces/qpoases/qpoases_interface.cpp:264 | SUCCESSFUL_RETURN and RET_MAX_NWSR_REACHED are accepted; an accepted flag is always a listed one, with its listed message |
| ReturnCodes.UnknownFlagRecoverable | casadi/interfaces/qpoases/qpoases_interface.cpp:559-562 | the unknown-flag message has the fixed prefix and suffix, and the flag value can be recovered from it |
| ReturnCodes.UnknownMessagesDistinct | casadi/interfaces/qpoases/qpoases_interface.cpp:559-562 | two different unlisted flags get different messages |
| Conversions.BoolToBooleanType | casadi/interfaces/qpoases/qpoases_interface.cpp:573-575 | the result is never an unlisted value, and it is BT_TRUE exactly when the argument is true |
| Conversions.BooleanTypeToBool | casadi/interfaces/qpoases/qpoases_interface.cpp:565-571 | succeeds exactly on BT_TRUE/BT_FALSE, inverts bool_to_BooleanType, and raises "not_implemented" otherwise |
| Conversions.BoolRoundTrip | casadi/interfaces/qpoases/qpoases_interface.cpp:565-575 | bool → BooleanType → bool is the identity |
| Conversions.SubjectToStatusToString | casadi/interfaces/qpoases/qpoases_interface.cpp:577-586 | succeeds exactly on the five listed statuses, always with one of the five accepted tokens; raises "not_implemented" otherwise |
| Conversions.StringToSubjectToStatus | casadi/interfaces/qpoases/qpoases_interface.cpp:588-602 | succeeds exactly on the five tokens, with a status that converts back to the same string; raises "not_implemented" otherwise |
| Conversions.StatusRoundTrip | casadi/interfaces/qpoases/qpoases_interface.cpp:577-602 | every listed status survives status → string → status |
| Conversions.DocumentedUpperRejected | casadi/interfaces/qpoases/qpoases_interface.cpp:112-114 | "upper" is among the documented tokens, yet string_to_SubjectToStatus rejects it |
| Conversions.PrintLevelToString | casadi/interfaces/qpoases/qpoases_interface.cpp:604-613 | succeeds exactly on the five listed levels, with one of the five tokens; raises "not_implemented" otherwise |
| Conversions.StringToPrintLevel | casadi/interfaces/qpoases/qpoases_interface.cpp:615-629 | succeeds exactly on the five tokens, with a level that converts back to the same string; raises "not_implemented" otherwise |
| Conversions.PrintLevelRoundTrip | casadi/interfaces/qpoases/qpoases_interface.cpp:604-629 | every listed print level survives level → string → level |
| Conversions.TabularAcceptedUndocumented | casadi/interfaces/qpoases/qpoases_interface.cpp:65-67 | "tabular" is accepted although the documented tokens omit it |
| WorkLayout.AllocSizes | casadi/interfaces/qpoases/qpoases_interface.cpp:154-161 | the eight requests of init, in order: n², n·nc, n, n, n, nc, nc, n+nc |
| WorkLayout.Carve | casadi/interfaces/qpoases/qpoases_interface.cpp:221-243 | the slices a bump pointer hands out, one per requested size; their placement is stated by CarveAt, CarveContiguous, CarveDisjoint and CarveFits |
| WorkLayout.Layout | casadi/interfaces/qpoases/qpoases_interface.cpp:221-243 | the eight slices of eval, carved from offset 0 in the order of init's requests |
| WorkLayout.Budget | casadi/interfaces/qpoases/qpoases_interface.cpp:154-161 | the total init reserves, the sum of the eight requests; LayoutOffsets gives it as n² + n·nc + 4n + 3nc |
| WorkLayout.CarveAt | casadi/interfaces/qpoases/qpoases_interface.cpp:221-243 | a bump pointer hands out slice i at start + the sum of the earlier sizes, with the requested size |
| WorkLayout.CarveContiguous | casadi/interfaces/qpoases/qpoases_interface.cpp:221-243 | each slice begins where the previous one ends, and the last one ends at start + total |
| WorkLayout.CarveDisjoint | casadi/interfaces/qpoases/qpoases_interface.cpp:221-243 | an earlier slice ends before a later one begins |
| WorkLayout.CarveFits | casadi/interfaces/qpoases/qpoases_interface.cpp:221-243 | every slice lies within [start, start + total) |
| WorkLayout.LayoutSound | casadi/interfaces/qpoases/qpoases_interface.cpp:154-161 | the eight slices of eval have the sizes init requested, do not overlap, and fit in the reserved budget |
| WorkLayout.LayoutContiguous | casadi/interfaces/qpoases/qpoases_interface.cpp:221-243 | eval's pointer starts at 0, each slice follows the previous one, and the dual slice ends exactly at the budget |
| WorkLayout.LayoutOffsets | casadi/interfaces/qpoases/qpoases_interface.cpp:221-243 | the offset of every slice, written out, and the budget n² + n·nc + 4n + 3nc |
| Buffers.Scaled | casadi/interfaces/qpoases/qpoases_interface.cpp:278 | element-wise alpha · s, with the same length |
| Buffers.Negated | casadi/interfaces/qpoases/qpoases_interface.cpp:278 | element-wise negation, with the same length |
| Buffers.NegatedInvolution | casadi/interfaces/qpoases/qpoases_interface.cpp:278 | negating twice gives back the multipliers qpOASES reported |
| Buffers.NegatedSplit | casadi/interfaces/qpoases/qpoases_interface.cpp:278-280 | negate-then-split equals split-then-negate, and the two parts rejoin into the negated whole |
| Buffers.CopyIn | casadi/interfaces/qpoases/qpoases_interface.cpp:234-243 | copies a vector into a slice of the work vector and leaves everything else unchanged |
| Buffers.Push | casadi/interfaces/qpoases/qpoases_interface.cpp:221-243 | one bump-pointer step: the copied slice, the pointer advanced by its length, and the filled prefix extended by the vector; every entry from the new pointer on is unchanged |
| Buffers.CopyOut | casadi/interfaces/qpoases/qpoases_interface.cpp:279-280 | the output receives exactly the given slice of the work vector |
| Buffers.Scale | casadi/interfaces/qpoases/qpoases_interface.cpp:278 | scales the slice in place and leaves the rest of the array unchanged |
| Qpoases.ResolveMaxNWSR | casadi/interfaces/qpoases/qpoases_interface.cpp:139-144 | an unset nWSR gives 5(n + nc); a set nWSR is kept exactly when it is non-negative, and otherwise the assertion fails |
| Qpoases.ResolveMaxCpuTime | casadi/interfaces/qpoases/qpoases_interface.cpp:146-151 | an unset CPUtime gives the sentinel -1; a set CPUtime is kept exactly when it is positive, and otherwise the assertion fails |
| Qpoases.CpuTimeArgument | casadi/interfaces/qpoases/qpoases_interface.cpp:230-231 | qpOASES receives no CPU-time pointer exactly when the budget is not positive, and otherwise the budget itself |
| Qpoases.CpuTimeSentinel | casadi/interfaces/qpoases/qpoases_interface.cpp:146-151 | an accepted CPUtime option reaches qpOASES unchanged, and an unset one means no limit |
| Qpoases.TranslateOptions | casadi/interfaces/qpoases/qpoases_interface.cpp:175-206 | succeeds exactly when printLevel and initialStatusBounds are accepted tokens; every translated field converts back to its option value; otherwise raises "not_implemented" |
| Qpoases.VariantFor | casadi/interfaces/qpoases/qpoases_interface.cpp:170-174 | the bound-only QProblemB exactly when nc = 0, otherwise SQProblem |
| Qpoases.QpBackend.BoundsOnly | casadi/interfaces/qpoases/qpoases_interface.cpp:171 | a new QProblemB with n variables, no constraints, no options and no calls yet |
| Qpoases.QpBackend.General | casadi/interfaces/qpoases/qpoases_interface.cpp:173 | a new SQProblem with n variables and nc constraints, no options and no calls yet |
| Qpoases.QpBackend.SetOptions | casadi/interfaces/qpoases/qpoases_interface.cpp:209 | the solver object now holds the given options |
| Qpoases.QpBackend.Init | casadi/interfaces/qpoases/qpoases_interface.cpp:248-251 | records the init call with its data, and its solution becomes the supplied reply |
| Qpoases.QpBackend.Hotstart | casadi/interfaces/qpoases/qpoases_interface.cpp:260-261 | records the hotstart call of the general variant, and its solution becomes the supplied reply |
| Qpoases.QpBackend.Reset | casadi/interfaces/qpoases/qpoases_interface.cpp:256 | records the reset call |
| Qpoases.QpBackend.GetObjVal | casadi/interfaces/qpoases/qpoases_interface.cpp:269 | the objective of the most recent solve |
| Qpoases.QpBackend.GetPrimalSolution | casadi/interfaces/qpoases/qpoases_interface.cpp:272 | writes the primal vector of the most recent solve |
| Qpoases.QpBackend.GetDualSolution | casadi/interfaces/qpoases/qpoases_interface.cpp:277 | writes the n + nc multipliers of the most recent solve at the offset and nothing else |
| Qpoases.DispatchPath | casadi/interfaces/qpoases/qpoases_interface.cpp:246-263 | cold init exactly when called_once is false; hotstart exactly when it is set and nc > 0; reset + init exactly when it is set and nc = 0 |
| Qpoases.WarmPath | casadi/interfaces/qpoases/qpoases_interface.cpp:255-262 | the path of every evaluation after the first: it is the dispatch path once called_once is set, and never a cold init |
| Qpoases.CallsFor | casadi/interfaces/qpoases/qpoases_interface.cpp:247-262 | each path ends in exactly one solve that gets the problem, max_nWSR_ and the CPU-time argument; only the bound-only warm path resets first (two calls), and only the general warm path hot-starts |
| Qpoases.QpoasesInterface.ProblemOf | casadi/interfaces/qpoases/qpoases_interface.cpp:248-251 | the bound-only form without A and the constraint bounds exactly when nc = 0; every field is the matching argument |
| Qpoases.Trace | casadi/interfaces/qpoases/qpoases_interface.cpp:246-263 | the paths of k consecutive evaluations, one per evaluation. It composes two postconditions of Eval: the path is DispatchPath of the current flag, and the flag is set afterwards |
| Qpoases.WarmTrace | casadi/interfaces/qpoases/qpoases_interface.cpp:253-263 | once called_once is set, every later evaluation takes the warm path of its variant (induction on k) |
| Qpoases.TraceAfterInitMemory | casadi/interfaces/qpoases/qpoases_interface.cpp:166 | after init_memory, the first evaluation is a cold init and every later one is warm |
| Qpoases.BoundsOnlyNeverHotstarts | casadi/interfaces/qpoases/qpoases_interface.cpp:255-258 | with nc = 0, no evaluation ever hot-starts, whatever the state of called_once |
| Qpoases.QpoasesMemory.constructor | casadi/interfaces/qpoases/qpoases_interface.cpp:631-633 | the memory starts without a solver object |
| Qpoases.QpoasesInterface.constructor | casadi/interfaces/qpoases/qpoases_interface.cpp:50-52 | an adapter for n variables and nc constraints with the given option values and no work-vector reservation yet |
| Qpoases.QpoasesInterface.AllocW | casadi/interfaces/qpoases/qpoases_interface.cpp:154-161 | each request grows the reserved work-vector length by its size |
| Qpoases.QpoasesInterface.Init | casadi/interfaces/qpoases/qpoases_interface.cpp:135-162 | sets max_nWSR_ and max_cputime_ as the option rules say; a failed assertion stops init; on success exactly the eight-slice budget is reserved |
| Qpoases.QpoasesInterface.InitMemory | casadi/interfaces/qpoases/qpoases_interface.cpp:164-210 | clears called_once; installs a fresh solver object of the variant nc dictates, with no calls; passes it the translated options, or raises "not_implemented" |
| Qpoases.QpoasesInterface.LoadWork | casadi/interfaces/qpoases/qpoases_interface.cpp:221-243 | the work vector's first slices hold H, A, g, lbx, ubx, lbA, ubA in this order; the solver object is handed exactly the argument data; the dual slice is where the pointer then stands, and it and everything after it are unchanged |
| Qpoases.QpoasesInterface.Solve | casadi/interfaces/qpoases/qpoases_interface.cpp:245-263 | makes exactly the calls of the dispatch path, with max_nWSR_ and the CPU-time argument; called_once is set afterwards |
| Qpoases.QpoasesInterface.LoadAndSolve | casadi/interfaces/qpoases/qpoases_interface.cpp:221-263 | loads the work vector and dispatches: exactly the dispatch path's calls, called_once set, options and reply kept, the reply made current, the flag returned |
| Qpoases.QpoasesInterface.NegatedDuals | casadi/interfaces/qpoases/qpoases_interface.cpp:276-278 | the dual slice holds the negated bound multipliers followed by the negated constraint multipliers; every entry outside the dual slice, including the seven input slices, is unchanged |
| Qpoases.QpoasesInterface.FetchDuals | casadi/interfaces/qpoases/qpoases_interface.cpp:275-281 | lam_x gets the negated first n multipliers and lam_a the negated remaining nc, each only if it is wanted |
| Qpoases.QpoasesInterface.WriteOutputs | casadi/interfaces/qpoases/qpoases_interface.cpp:268-281 | every wanted output receives its part of the most recent solve |
| Qpoases.QpoasesInterface.Eval | casadi/interfaces/qpoases/qpoases_interface.cpp:212-282 | makes exactly the dispatch path's calls and sets called_once; keeps the solver object's options and supplied reply, and makes that reply its current solution; fails exactly when the flag is neither success nor an exhausted working-set budget, with "qpOASES failed: " + the flag's message and no output touched; otherwise cost, x, lam_x and lam_a are the objective, the primal vector and the negated, split multipliers |

## Left out

- The qpOASES numerics: `init`, `hotstart`, `reset` and the getters are an oracle (`QpBackend`). Whether a reply is a correct QP solution is not modelled.
- `casadi_densify`: the sparse-to-dense expansion of H and A, including the transposition of A, is not modelled. The arguments arrive already dense, in the layout qpOASES expects.
- `casadi_copy` and `casadi_densify` with a missing (null) input write zeros. This is not part of this model: every input is present.
- `checkInputs`, which runs when `inputs_check_` is set, belongs to the `Qpsol` base class. It is not part of this model.
- `Qpsol::init` and the `Qpsol` base constructor are not part of this model.
- The `addOption` registrations in the constructor, and the defaults taken from `qpOASES::Options::setToDefault`, are not modelled. The option values arrive already resolved, in `OptionValues`.
- The sixteen real-valued tolerance options (`terminationTolerance` … `epsNZCTests`) are copied unchanged into `qpOASES::Options`. They are left out of `SolverOptions` because the model gives them no meaning.
- WorkLayout.AllocSizes: the products n·n and n·nc, and the total n² + n·nc + 4n + 3nc, use unbounded integers. C `int` arithmetic overflows in the `alloc_w` calls (lines 154-155) and in `eval`'s pointer steps `w += n_*n_` and `w += n_*nc_` (lines 221 and 225) once n·n or n·nc exceeds 2³¹ − 1 (for n·n, once n > 46340). So `WorkLayout.LayoutSound` and `Qpoases.QpoasesInterface.LoadWork` describe the source only while these values fit in 32 bits. The 32-bit overflow is not modelled.
- Qpoases.ResolveMaxNWSR: 5(n + nc) is computed on unbounded integers, so a 32-bit `int` overflow for huge n + nc is not modelled.
- C `double` is modelled as `real`. Copying and negating with `casadi_scal(-1.)` are exact in IEEE arithmetic, so nothing changes there. A NaN `CPUtime` has no counterpart in `real`. In the source it fails `casadi_assert(max_cputime_>0)` (line 148), like any non-positive value.
- qpOASES writes the used iteration count back into the local `nWSR`, and the used CPU time into `cputime`. The adapter discards both, so the model does too.
- A raised `casadi_error` or `casadi_assert` is modelled by its message or condition only. The file and line prefix CasADi adds is left out.
- Deleting an old solver object in `init_memory` (line 169), and the `QpoasesMemory` destructor (lines 635-637), are memory management outside the model.
- Plugin registration (`casadi_register_qpsol_qpoases`, `casadi_load_qpsol_qpoases`) is not modelled.
- ReturnCodes.ErrorMessage: its contract does not prove that each listed message is non-empty, or that it differs from the unknown-flag text. The solver cannot decide those facts cheaply over 131 literal strings. They hold by inspection of `ReturnCodes.ListedMessage`.
- The numeric values of the qpOASES enumerations are not known here. So an unlisted flag (`Other`) and an unlisted enumeration value (`BtUnlisted` and the other unlisted constructors) say nothing about which integers they stand for.
- `casadi/core/function/linsol.hpp`, `interfaces/ipopt/ipopt_solver.hpp` and `casadi/fx/qp_solver_internal.cpp` are not part of this model.

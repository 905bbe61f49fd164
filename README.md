# The Elo rating pass of elo.py, in Dafny

elo.py rates competitors from a list of fights. Each fight is a pair of ids, a result for
the left side (1 for a win, 0 for a loss, anything else for a draw or partial result) and
a bonus flag. `fit_elos` makes one left-to-right pass over the fights and keeps a table
(`elo_dict`) with one entry per competitor: a score, a match count (`num`) and a bonus
counter (`extra`). For each fight it:

- computes the expected result of the left side from the two effective ratings
  `score - extra_factor*extra`;
- increments both match counts;
- picks each side's step size from the piecewise schedule `K_num`/`K`;
- moves the two scores in opposite directions;
- applies the bonus rules;
- accumulates the log-likelihood.

It returns the table (`'dict'`), the list of pre-update effective-rating pairs (`'list'`)
or the negated log-likelihood (`'log_loss'`). `check_data` zips and validates the input,
`get_elo` creates entries lazily, and `elo` with explicit parameters checks that `K_num`
and `K` have the same length before running the pass.

The project has three modules:

- `elo.dfy` (module `Elo`) is the pure model:
  - the data types and the error cases;
  - `CheckData`, the schedule lookup `StepSize` and one fight `Step`;
  - the state after the first n fights, `Run`;
  - `FitElosResult`.

  `Settle` states what a fight does to the two entries. `SettleIsInPlaceUpdates` proves
  that the source's field-by-field updates through the dictionary give the same entries,
  including when one competitor is on both sides of a fight.
- `elo_pass.dfy` (module `EloPass`) is the imperative pass:
  - a class `RatingTable` whose methods update the table in place, as `get_elo` and the
    loop body do;
  - the loop itself, `Replay`;
  - `FitElos` and the entry point `RunElo`.

  Each method is proved to compute exactly what module `Elo` defines.
- `elo_properties.dfy` (module `EloProperties`) proves what the pass promises:
  - the round trip of `check_data`;
  - where and why a pass fails;
  - what one fight does to scores, counts, bonus counters and the log-likelihood;
  - the keys, order and counts of the final table;
  - the shape of each output mode;
  - two worked examples.

The logistic expectation (elo.py:4-5) and `np.log` are transcendental floating-point
functions. They are parameters of the model, a `Numerics` value holding two functions
`real -> real`. The general properties that depend on them assume only that the logistic
lies strictly between 0 and 1 (`IsProbability`) and that the logarithm of such a value is
not positive (`LogOfProbabilityNonPositive`). The worked example `FirstWinExample` also
assumes that the logistic of a zero rating difference is exactly 1/2, as
`1/(1+10**(0/400))` is. Python numbers are modelled as follows:

- scores, results and step sizes are `real`;
- breakpoints and flags are `int`;
- counts and bonus counters are `nat`, so a bonus counter is never negative by
  construction;
- ids are strings, and the table's key order is modelled, since a Python dict iterates
  in insertion order.

Python exceptions become the `Error` cases of a `Result`. Python raises them without a
position, but the two schedule errors here carry the index of the fight at which the
pass stopped, so that "the pass fails at that fight and not earlier" can be stated.

Two consequences of elo.py that are easy to miss:

- A schedule with no breakpoint above 1, such as `K_num=[0]`, makes every non-empty pass
  fail with `ScheduleExhausted` at fight 0. Each count is at least 1 after its increment,
  so no breakpoint exceeds it and `next(...)` raises (elo.py:41-45;
  `LowScheduleFailsAtFirstFight`). Such a schedule never yields a pass with zero rating
  movement.
- `extras` is a required argument of `elo` and `check_data` (elo.py:17, 68). The bonus
  flags have no default.

## Model

| member | source | states |
|---|---|---|
| Elo.ParseReturnType | elo.py:27-28 | exactly the strings 'dict', 'list' and 'log_loss' are accepted, each as its own mode |
| Elo.CheckData | elo.py:17-20 | succeeds iff ids, results and extras have equal lengths, otherwise fails with ShapeMismatch; on success yields one fight per index, in order, made of the i-th pair, result and flag |
| Elo.Touch | elo.py:8-14 | after the lookup the id has an entry, equal to its old entry or to the fresh 1000/0/0 entry when it had none |
| Elo.TouchKeepsWellFormed | elo.py:8-14 | lazy insertion keeps every key listed exactly once in insertion order |
| Elo.FirstAboveIsFirst | elo.py:44-45 | the breakpoint search returns the least index, in list order, whose breakpoint exceeds the count, and returns none only when no breakpoint does; the schedule need not be sorted |
| Elo.StepSizeSelects | elo.py:44-45 | the step lookup fails with ScheduleExhausted iff no breakpoint exceeds the count, fails with StepIndexOutOfRange iff the first such index has no step in K, and otherwise yields K at the first index whose breakpoint exceeds the count |
| Elo.SettleIsInPlaceUpdates | elo.py:31-59 | the in-place updates (two lookups, two count increments, two score updates, the bonus rules) applied through the shared dictionary give exactly the entries of Settle, and the order gains exactly the newcomers, left first |
| Elo.ErrorPersists | elo.py:30-45 | once the pass has failed it stays failed with the same error for every longer prefix |
| EloPass.RatingTable.constructor | elo.py:23 | the table starts empty |
| EloPass.RatingTable.GetElo | elo.py:8-14 | returns the id's entry (fresh 1000/0/0 on its first appearance) and inserts it at the end of the order only when it was absent |
| EloPass.RatingTable.IncNumInPlace | elo.py:41-42 | adds one to the count of that entry and changes nothing else |
| EloPass.RatingTable.AddScoreInPlace | elo.py:47-48 | adds the delta to the score of that entry and changes nothing else |
| EloPass.RatingTable.ResetExtraInPlace | elo.py:52-57 | sets the bonus counter of that entry to 0 and changes nothing else |
| EloPass.RatingTable.IncExtraInPlace | elo.py:53-59 | adds one to the bonus counter of that entry and changes nothing else |
| EloPass.RatingTable.SettleFight | elo.py:47-59 | performs both score updates and then the bonus rules of the result on the table, and returns the fight's log-likelihood term (log(expected), log(1-expected) or nothing) |
| EloPass.RatingTable.Play | elo.py:30-59 | one loop iteration on the table fails exactly when the fight's Step fails, with the same error; otherwise it leaves the table Step defines and returns the log-likelihood term and the pre-update effective ratings Step records |
| EloPass.Advance | elo.py:30-59 | one loop iteration either ends the whole pass with Run's error or reaches the state Run gives after one more fight |
| EloPass.Replay | elo.py:23-59 | the loop returns exactly Run over all fights (table, log-likelihood, and the differentials when they are recorded), or Run's error |
| EloPass.FitElos | elo.py:22-66 | returns FitElosResult: InvalidReturnType before any fight for an unknown return type, otherwise the pass's error or its output in the chosen mode |
| EloPass.RunElo | elo.py:68-75 | fails with ShapeMismatch on unequal input lengths, then with ParamLengthMismatch when K_num and K differ in length, and otherwise returns fit_elos on the zipped fights |
| EloProperties.CheckDataOfProjections | elo.py:17-20 | zipping the pairs, results and flags of a fight sequence gives that sequence back |
| EloProperties.ProjectionsOfCheckData | elo.py:17-20 | the pairs, results and flags of the zipped fights are exactly the three inputs |
| EloProperties.StepFailsIff | elo.py:41-45 | a fight fails iff the schedule has no step for one side's post-increment count; the left side's error wins; ScheduleExhausted when no breakpoint exceeds the count, StepIndexOutOfRange when the first one has no step |
| EloProperties.RunOkPrefix | elo.py:30-45 | a pass that got through n fights got through every shorter prefix |
| EloProperties.RunStopsAtFirstFailure | elo.py:30-45 | a failed pass failed at one fight whose index the error names: every earlier fight succeeded and that fight's own step raised the error |
| EloProperties.LowScheduleFailsAtFirstFight | elo.py:41-45 | with no breakpoint above 1 (K_num = [0], say) every non-empty pass fails with ScheduleExhausted at fight 0 |
| EloProperties.StepBetweenTwo | elo.py:41-48 | for two different competitors the left score moves by left_k*(result-expected) and the right by -right_k*(result-expected), each step being K at the first breakpoint above that side's count plus one; both counts go up by one; no other entry is created or changed |
| EloProperties.StepConservesScoreSum | elo.py:47-48 | when both sides get the same step the sum of their two scores is unchanged |
| EloProperties.StepRewardsTheWinner | elo.py:36-48 | with positive steps and a proper logistic, doing better than expected raises the left score and lowers the right score, and doing worse does the opposite; a win is always better than expected and a loss always worse |
| EloProperties.StepBonus | elo.py:52-59 | between two different competitors, a win clears the left bonus counter and adds one to the right one exactly when the flag is 1; a loss mirrors this; any other result leaves both counters unchanged |
| EloProperties.StepLogLike | elo.py:50-56 | for every fight that succeeds, a competitor on both sides included, a win adds log(expected) to the log-likelihood, a loss adds log(1-expected), and any other result leaves it unchanged |
| EloProperties.StepSelfFight | elo.py:41-59 | a competitor on both sides is counted twice, both lookups see the same count so its score does not move, a clean result clears and then re-adds the flag to its counter, and no other entry changes |
| EloProperties.StepLogLikeNonIncreasing | elo.py:50-56 | with a proper logistic and logarithm no fight raises the log-likelihood |
| EloProperties.StepBookkeeping | elo.py:31-42 | a fight appends its newcomers to the order, adds both ids to the keys and adds one to each side's count (two for a competitor on both sides) |
| EloProperties.RunBookkeeping | elo.py:31-42 | after n fights the keys are exactly the ids seen, the order is their order of first appearance (each once), and each count is the number of pair slots the id filled |
| EloProperties.RunDifferentials | elo.py:38-39 | the recorded list has one pair per fight: the effective ratings of both sides just before it |
| EloProperties.RunLogLikeNonPositive | elo.py:50-56 | with a proper logistic and logarithm the log-likelihood of a pass is never positive |
| EloProperties.InvalidReturnTypeRejected | elo.py:27-28 | an unknown return type is rejected with InvalidReturnType whatever the fights and parameters, even when the pass would fail |
| EloProperties.DictModeReturnsTable | elo.py:63-64 | 'dict' returns a well-formed table with one entry per id seen, in order of first appearance, each counting its pair slots |
| EloProperties.ListModeReturnsDifferentials | elo.py:61-62 | 'list' returns exactly one pair per fight, the pre-update effective ratings of that fight |
| EloProperties.LogLossNonNegative | elo.py:65-66 | 'log_loss' returns the negated log-likelihood, which is never negative with a proper logistic and logarithm |
| EloProperties.FirstWinExample | elo.py:36-48 | A beating B from 1000 each, with elo.py's fixed breakpoints 0, 5, 10, 15, 20 and step 32 at each, and expectation 1/2, leaves A at 1016 and B at 984, each with one match and no bonus |
| EloProperties.ScheduleRunsOutExample | elo.py:44-45 | with breakpoints 0 and 3 a pair meeting three times fails with ScheduleExhausted exactly at the third meeting |

## Left out

- The optimizer branch of `elo` (elo.py:70-72), which fits K and extra_factor with
  `scipy.optimize.minimize`: a foreign numerical optimizer whose result depends on
  floating-point convergence. `RunElo` takes explicit parameters only.
- The concrete arithmetic of `1/(1+10**(x/400))` and of `np.log` (elo.py:5, 51, 56). Both
  are parameters of the model, constrained only where a property needs it. That
  `1/(1+10**(x/400))` lies strictly between 0 and 1 holds over exact reals only. In Python
  floats it rounds to exactly 1.0 once the left side leads by more than about 6,380
  points, and `10**(x/400)` raises OverflowError, ending the pass, once the right side
  leads by more than about 123,300 points. A total `real -> real` parameter cannot
  express that exception.
- Floating-point rounding. Scores are exact reals. So the two cancelling movements of a
  competitor on both sides leave its score exactly unchanged (`StepSelfFight`), where
  Python floats may be off by one rounding.
- The default arguments: `return_type='dict'` of `fit_elos` and `elo` (elo.py:22, 68) and
  `scale=400` of `logistic` (elo.py:4). `FitElos` and `RunElo` take the return type
  explicitly, and the scale is part of the `Numerics` parameter.
- The NumPy and SciPy imports (elo.py:1-2). There is no I/O and no concurrency.
- A `params` dictionary missing one of its keys (a KeyError in Python): `Params` always
  has all three fields.
- Inputs of other Python types: results, flags and breakpoints of any numeric type,
  non-hashable ids, and the one-shot iterator that `zip` returns. The model takes a list
  of fights.
- Python exceptions carry no fight index. The index in `ScheduleExhausted` and
  `StepIndexOutOfRange` is extra information, so the model can state where a pass stops.
- The list of differentials: the source builds it only in `'list'` mode. `Step` builds it
  in every mode; `Replay` builds it only when asked, and is proved to return an empty list
  otherwise.

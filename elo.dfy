/** A model of the sequential Elo rating pass of elo.py.

    The pass walks over (pair, result, flag) fights from left to right and keeps a
    table of competitors with a score, a match count and a bonus counter ("extra").
    Everything here is pure: the state after the first n fights is `Run(fights, ..., n)`,
    and the imperative pass in module EloPass is proved to compute exactly that.

    The logistic expectation and the natural logarithm are real-valued transcendental
    functions; they are parameters of the model (a `Numerics` value). The general
    properties that depend on them assume only that the logistic lies strictly
    between 0 and 1 and that the logarithm of such a value is not positive; a
    worked example also assumes that the logistic of 0 is exactly 1/2. */
module Elo {

  /** Competitor identifiers are opaque in the source; strings stand for them. */
  type Id = string

  datatype Option<T> = None | Some(value: T)

  /** Every way the source can fail. Python exceptions carry no position; the
      schedule errors record the index of the fight at which the pass stopped. */
  datatype Error =
    | ShapeMismatch                   // check_data: ids, results, extras differ in length
    | InvalidReturnType               // fit_elos: return_type not 'dict', 'list' or 'log_loss'
    | ParamLengthMismatch             // elo: the assertion len(K_num) == len(K) fails
    | ScheduleExhausted(fight: nat)   // no breakpoint exceeds the count: next(...) raises StopIteration
    | StepIndexOutOfRange(fight: nat) // the breakpoint index has no step in K: K[i] raises IndexError

  datatype Result<T> = Ok(value: T) | Err(error: Error)

  /** One element of the zipped input: fight[0] is the pair, fight[1] the result,
      fight[2] the bonus flag. */
  datatype Fight = Fight(left: Id, right: Id, result: real, flag: int)

  /** A table entry: {'score': ..., 'num': ..., 'extra': ...}. */
  datatype Entry = Entry(score: real, num: nat, extra: nat)

  /** The explicit parameters: breakpoints K_num, step sizes K and extra_factor. */
  datatype Params = Params(kNum: seq<int>, k: seq<real>, extraFactor: real)

  /** The numerical functions the pass uses: logistic (elo.py:4-5) and np.log. */
  datatype Numerics = Numerics(logistic: real -> real, log: real -> real)

  /** What 1/(1+10^(x/400)) satisfies over exact reals: it lies strictly between 0 and 1. */
  ghost predicate IsProbability(f: real -> real) {
    forall x :: 0.0 < f(x) < 1.0
  }

  /** The logarithm of a probability is never positive. */
  ghost predicate LogOfProbabilityNonPositive(log: real -> real) {
    forall q :: 0.0 < q < 1.0 ==> log(q) <= 0.0
  }

  /** The three values of return_type the source accepts. */
  datatype ReturnType = DictMode | ListMode | LogLossMode

  function ParseReturnType(s: string): (r: Option<ReturnType>)
    ensures r == Some(DictMode) <==> s == "dict"
    ensures r == Some(ListMode) <==> s == "list"
    ensures r == Some(LogLossMode) <==> s == "log_loss"
  {
    if s == "dict" then Some(DictMode)
    else if s == "list" then Some(ListMode)
    else if s == "log_loss" then Some(LogLossMode)
    else None
  }

  // ---------------------------------------------------------------------------
  // check_data

  /** The fights in the order the input sequences give them. */
  function CheckData(ids: seq<(Id, Id)>, results: seq<real>, extras: seq<int>): (r: Result<seq<Fight>>)
    ensures r.Ok? <==> |ids| == |results| && |results| == |extras|
    ensures r.Err? ==> r.error == ShapeMismatch
    ensures r.Ok? ==> |r.value| == |ids|
    ensures r.Ok? ==> forall i :: 0 <= i < |ids| ==>
                r.value[i] == Fight(ids[i].0, ids[i].1, results[i], extras[i])
  {
    if |ids| == |results| && |results| == |extras| then
      Ok(seq(|ids|, i requires 0 <= i < |ids| => Fight(ids[i].0, ids[i].1, results[i], extras[i])))
    else
      Err(ShapeMismatch)
  }

  /** The three projections of a fight sequence, the inverse of the zip. */
  function PairsOf(fights: seq<Fight>): (r: seq<(Id, Id)>)
    ensures |r| == |fights|
  {
    seq(|fights|, i requires 0 <= i < |fights| => (fights[i].left, fights[i].right))
  }

  function ResultsOf(fights: seq<Fight>): (r: seq<real>)
    ensures |r| == |fights|
  {
    seq(|fights|, i requires 0 <= i < |fights| => fights[i].result)
  }

  function FlagsOf(fights: seq<Fight>): (r: seq<int>)
    ensures |r| == |fights|
  {
    seq(|fights|, i requires 0 <= i < |fights| => fights[i].flag)
  }

  // ---------------------------------------------------------------------------
  // The rating table and get_elo

  /** The fresh entry get_elo inserts on a KeyError. */
  const NewEntry := Entry(1000.0, 0, 0)

  /** The dictionary elo_dict: its entries and its keys in insertion order,
      the order in which a Python dict is iterated. */
  datatype Table = Table(entries: map<Id, Entry>, order: seq<Id>)

  const EmptyTable := Table(map[], [])

  ghost predicate Distinct(s: seq<Id>) {
    forall i, j :: 0 <= i < j < |s| ==> s[i] != s[j]
  }

  /** The order lists every key exactly once. */
  ghost predicate WellFormed(t: Table) {
    Distinct(t.order) && forall id :: id in t.entries <==> id in t.order
  }

  /** The entry get_elo would return, without inserting it. */
  function EntryOf(t: Table, id: Id): (e: Entry)
    ensures id !in t.entries ==> e == NewEntry
  {
    if id in t.entries then t.entries[id] else NewEntry
  }

  /** get_elo: look an id up, inserting a fresh entry on its first appearance. */
  function Touch(t: Table, id: Id): (r: Table)
    ensures id in r.entries && r.entries[id] == EntryOf(t, id)
  {
    if id in t.entries then t
    else Table(t.entries[id := NewEntry], t.order + [id])
  }

  /** Inserting at the end of the order keeps every key listed exactly once. */
  lemma TouchKeepsWellFormed(t: Table, id: Id)
    requires WellFormed(t)
    ensures WellFormed(Touch(t, id))
  {
  }

  /** The in-place updates of the pass, one field of one entry at a time. */
  function IncNum(m: map<Id, Entry>, id: Id): map<Id, Entry>
    requires id in m
  {
    m[id := m[id].(num := m[id].num + 1)]
  }

  function AddScore(m: map<Id, Entry>, id: Id, delta: real): map<Id, Entry>
    requires id in m
  {
    m[id := m[id].(score := m[id].score + delta)]
  }

  function ResetExtra(m: map<Id, Entry>, id: Id): map<Id, Entry>
    requires id in m
  {
    m[id := m[id].(extra := 0)]
  }

  function IncExtra(m: map<Id, Entry>, id: Id): map<Id, Entry>
    requires id in m
  {
    m[id := m[id].(extra := m[id].extra + 1)]
  }

  /** The effective rating score - extra_factor*extra. */
  function Effective(e: Entry, extraFactor: real): real {
    e.score - extraFactor * (e.extra as real)
  }

  // ---------------------------------------------------------------------------
  // The K schedule lookup (elo.py:44-45)

  ghost predicate IsFirstAbove(kNum: seq<int>, n: int, i: int) {
    0 <= i < |kNum| && kNum[i] > n && forall j :: 0 <= j < i ==> kNum[j] <= n
  }

  /** The first index from j on, in list order, whose breakpoint exceeds n; the
      schedule need not be sorted. */
  function FirstAbove(kNum: seq<int>, n: int, j: nat): Option<nat>
    decreases |kNum| - j
  {
    if j >= |kNum| then None
    else if kNum[j] > n then Some(j)
    else FirstAbove(kNum, n, j + 1)
  }

  /** Searching from j on, given that no breakpoint before j exceeds n, finds the
      least qualifying index, and finds none only when no breakpoint exceeds n. */
  lemma {:induction false} FirstAboveIsFirst(kNum: seq<int>, n: int, j: nat)
    requires forall i :: 0 <= i < j && i < |kNum| ==> kNum[i] <= n
    ensures FirstAbove(kNum, n, j).Some? ==> IsFirstAbove(kNum, n, FirstAbove(kNum, n, j).value)
    ensures FirstAbove(kNum, n, j).None? ==> forall i :: 0 <= i < |kNum| ==> kNum[i] <= n
    decreases |kNum| - j
  {
    if j < |kNum| && kNum[j] <= n {
      FirstAboveIsFirst(kNum, n, j + 1);
    }
  }

  /** The step size K[i] for a side whose count is n, in the fight with index at. */
  function StepSize(p: Params, n: int, at: nat): Result<real> {
    match FirstAbove(p.kNum, n, 0)
    case None => Err(ScheduleExhausted(at))
    case Some(i) => if i < |p.k| then Ok(p.k[i]) else Err(StepIndexOutOfRange(at))
  }

  /** The lookup fails by exhaustion exactly when no breakpoint exceeds n, by an
      index error exactly when the first such breakpoint has no step, and otherwise
      yields the step paired with the first breakpoint above n. */
  lemma StepSizeSelects(p: Params, n: int, at: nat)
    ensures StepSize(p, n, at) == Err(ScheduleExhausted(at)) <==>
              forall j :: 0 <= j < |p.kNum| ==> p.kNum[j] <= n
    ensures StepSize(p, n, at) == Err(StepIndexOutOfRange(at)) <==>
              exists i :: IsFirstAbove(p.kNum, n, i) && i >= |p.k|
    ensures StepSize(p, n, at).Ok? ==>
              exists i :: IsFirstAbove(p.kNum, n, i) && i < |p.k| && StepSize(p, n, at).value == p.k[i]
    ensures StepSize(p, n, at).Err? ==>
              StepSize(p, n, at).error in {ScheduleExhausted(at), StepIndexOutOfRange(at)}
  {
    FirstAboveIsFirst(p.kNum, n, 0);
    match FirstAbove(p.kNum, n, 0)
    case None =>
    case Some(i) =>
      forall j | IsFirstAbove(p.kNum, n, j) ensures j == i {
      }
  }

  // ---------------------------------------------------------------------------
  // One fight and the whole pass

  /** The state of fit_elos between fights: the table, the running log-likelihood
      and the list of pre-update effective ratings. The list is built here in every
      mode; the source only builds it in 'list' mode, where alone it is observable. */
  datatype PassState = PassState(table: Table, loglike: real, diffs: seq<(real, real)>)

  const InitialState := PassState(EmptyTable, 0.0, [])

  /** The effective ratings of both sides before the fight, as recorded in 'list' mode. */
  function PreUpdateRatings(t: Table, f: Fight, extraFactor: real): (real, real) {
    (Effective(EntryOf(t, f.left), extraFactor), Effective(EntryOf(t, f.right), extraFactor))
  }

  /** The expected result for the left side, logistic(right - left) of the
      pre-update effective ratings (elo.py:36). */
  function Expected(t: Table, f: Fight, p: Params, nums: Numerics): real {
    var pre := PreUpdateRatings(t, f, p.extraFactor);
    nums.logistic(pre.1 - pre.0)
  }

  /** The rating change k*(result-expected) with step size k. */
  function Movement(k: real, result: real, expected: real): real {
    k * (result - expected)
  }

  /** The bonus counters after the fight (elo.py:50-59) when the two sides are
      different competitors: a clean win clears the winner's counter and, when the
      flag is 1, adds one to the loser's; any other result leaves both alone. */
  function LeftExtraAfter(e: Entry, f: Fight): nat {
    if f.result == 1.0 then 0
    else if f.result == 0.0 && f.flag == 1 then e.extra + 1
    else e.extra
  }

  function RightExtraAfter(e: Entry, f: Fight): nat {
    if f.result == 0.0 then 0
    else if f.result == 1.0 && f.flag == 1 then e.extra + 1
    else e.extra
  }

  /** The counter of a competitor on both sides: it is cleared, then incremented
      when the flag is 1. */
  function SelfExtraAfter(e: Entry, f: Fight): nat {
    if f.result == 1.0 || f.result == 0.0 then (if f.flag == 1 then 1 else 0)
    else e.extra
  }

  /** The log-likelihood term of one fight; fractional results add nothing. */
  function LogTerm(f: Fight, expected: real, log: real -> real): real {
    if f.result == 1.0 then log(expected)
    else if f.result == 0.0 then log(1.0 - expected)
    else 0.0
  }

  /** The ids get_elo inserts for a fight, left first. */
  function Newcomers(t: Table, f: Fight): seq<Id> {
    (if f.left in t.entries then [] else [f.left]) +
    (if f.right in t.entries || f.right == f.left then [] else [f.right])
  }

  /** The count the step-size lookup sees for id (elo.py:41-45): both counts are
      incremented through references first, so a competitor on both sides of the
      fight is counted twice. */
  function CountAfter(t: Table, f: Fight, id: Id): nat {
    EntryOf(t, id).num + (if id == f.left then 1 else 0) + (if id == f.right then 1 else 0)
  }

  /** The table after the score and bonus updates of one fight, given both step sizes. */
  function Settle(t: Table, f: Fight, leftK: real, rightK: real, expected: real): Table {
    var l := EntryOf(t, f.left);
    var r := EntryOf(t, f.right);
    var entries :=
      if f.left == f.right then
        t.entries[f.left := Entry(l.score + Movement(leftK, f.result, expected)
                                          - Movement(rightK, f.result, expected),
                                  l.num + 2, SelfExtraAfter(l, f))]
      else
        t.entries[f.left := Entry(l.score + Movement(leftK, f.result, expected), l.num + 1,
                                  LeftExtraAfter(l, f))]
                 [f.right := Entry(r.score - Movement(rightK, f.result, expected), r.num + 1,
                                   RightExtraAfter(r, f))];
    Table(entries, t.order + Newcomers(t, f))
  }

  /** The same updates as Settle, written as the source performs them: one field
      of one entry at a time, through the dictionary (elo.py:41-42, 47-48, 50-59). */
  function InPlaceUpdates(m: map<Id, Entry>, f: Fight, leftK: real, rightK: real, expected: real): map<Id, Entry>
    requires f.left in m && f.right in m
  {
    ResultUpdates(IncNum(IncNum(m, f.left), f.right), f, leftK, rightK, expected)
  }

  /** elo.py:47-59: the score updates, then the bonus rules. */
  function ResultUpdates(m: map<Id, Entry>, f: Fight, leftK: real, rightK: real, expected: real): map<Id, Entry>
    requires f.left in m && f.right in m
  {
    var scored := AddScore(AddScore(m, f.left, Movement(leftK, f.result, expected)),
                           f.right, -Movement(rightK, f.result, expected));
    BonusUpdates(scored, f)
  }

  function BonusUpdates(m: map<Id, Entry>, f: Fight): map<Id, Entry>
    requires f.left in m && f.right in m
  {
    if f.result == 1.0 then
      var m' := ResetExtra(m, f.left);
      if f.flag == 1 then IncExtra(m', f.right) else m'
    else if f.result == 0.0 then
      var m' := ResetExtra(m, f.right);
      if f.flag == 1 then IncExtra(m', f.left) else m'
    else m
  }

  /** The field-by-field updates through the dictionary, applied to the table
      get_elo has filled for both sides, give exactly the entries of Settle: this is
      where the aliasing of a competitor on both sides is accounted for. */
  lemma SettleIsInPlaceUpdates(t: Table, f: Fight, leftK: real, rightK: real, expected: real)
    ensures var entered := Touch(Touch(t, f.left), f.right);
            f.left in entered.entries && f.right in entered.entries &&
            entered.order == t.order + Newcomers(t, f) &&
            InPlaceUpdates(entered.entries, f, leftK, rightK, expected) ==
              Settle(t, f, leftK, rightK, expected).entries
  {
    var entered := Touch(Touch(t, f.left), f.right);
    assert entered.entries[f.left] == EntryOf(t, f.left);
    assert entered.entries[f.right] == EntryOf(t, f.right);
    if f.left == f.right {
      SelfUpdates(entered.entries, t, f, leftK, rightK, expected);
    } else {
      PairUpdates(entered.entries, t, f, leftK, rightK, expected);
    }
  }

  lemma SelfUpdates(m: map<Id, Entry>, t: Table, f: Fight, leftK: real, rightK: real, expected: real)
    requires f.left == f.right && f.left in m && m[f.left] == EntryOf(t, f.left)
    requires m == t.entries[f.left := EntryOf(t, f.left)]
    ensures InPlaceUpdates(m, f, leftK, rightK, expected) == Settle(t, f, leftK, rightK, expected).entries
  {
    var updated := InPlaceUpdates(m, f, leftK, rightK, expected);
    var settled := Settle(t, f, leftK, rightK, expected).entries;
    assert updated.Keys == settled.Keys;
    assert updated[f.left] == settled[f.left];
  }

  lemma PairUpdates(m: map<Id, Entry>, t: Table, f: Fight, leftK: real, rightK: real, expected: real)
    requires f.left != f.right && f.left in m && f.right in m
    requires m[f.left] == EntryOf(t, f.left) && m[f.right] == EntryOf(t, f.right)
    requires m == t.entries[f.left := EntryOf(t, f.left)][f.right := EntryOf(t, f.right)]
    ensures InPlaceUpdates(m, f, leftK, rightK, expected) == Settle(t, f, leftK, rightK, expected).entries
  {
    var updated := InPlaceUpdates(m, f, leftK, rightK, expected);
    var settled := Settle(t, f, leftK, rightK, expected).entries;
    assert updated.Keys == settled.Keys;
    assert updated[f.left] == settled[f.left];
    assert updated[f.right] == settled[f.right];
  }

  /** One iteration of the loop of fit_elos on the fight with index at: the
      expectation from the pre-update effective ratings, the step sizes for the
      post-increment counts (left first; either lookup may abort the pass), and the
      updates of both entries. */
  function Step(s: PassState, f: Fight, at: nat, p: Params, nums: Numerics): Result<PassState> {
    var pre := PreUpdateRatings(s.table, f, p.extraFactor);
    var expected := Expected(s.table, f, p, nums);
    match StepSize(p, CountAfter(s.table, f, f.left), at)
    case Err(e) => Err(e)
    case Ok(leftK) =>
      match StepSize(p, CountAfter(s.table, f, f.right), at)
      case Err(e) => Err(e)
      case Ok(rightK) =>
        Ok(PassState(Settle(s.table, f, leftK, rightK, expected),
                     s.loglike + LogTerm(f, expected, nums.log),
                     s.diffs + [pre]))
  }

  /** The state after the first n fights, or the error that stopped the pass. */
  function Run(fights: seq<Fight>, p: Params, nums: Numerics, n: nat): Result<PassState>
    requires n <= |fights|
  {
    if n == 0 then Ok(InitialState)
    else match Run(fights, p, nums, n - 1)
      case Err(e) => Err(e)
      case Ok(s) => Step(s, fights[n - 1], n - 1, p, nums)
  }

  /** One more fight: the pass so far, followed by that fight's step. */
  lemma RunNext(fights: seq<Fight>, p: Params, nums: Numerics, n: nat)
    requires n < |fights|
    requires Run(fights, p, nums, n).Ok?
    ensures Run(fights, p, nums, n + 1) == Step(Run(fights, p, nums, n).value, fights[n], n, p, nums)
  {
  }

  /** Once the pass has failed, it stays failed with the same error. */
  lemma {:induction false} ErrorPersists(fights: seq<Fight>, p: Params, nums: Numerics, n: nat, m: nat)
    requires n <= m <= |fights|
    requires Run(fights, p, nums, n).Err?
    ensures Run(fights, p, nums, m) == Run(fights, p, nums, n)
    decreases m - n
  {
    if n < m {
      assert Run(fights, p, nums, n + 1) == Run(fights, p, nums, n);
      ErrorPersists(fights, p, nums, n + 1, m);
    }
  }

  datatype Output =
    | Ratings(table: Table)                  // 'dict': elo_dict
    | Differentials(pairs: seq<(real, real)>) // 'list': diff_list
    | NegLogLike(value: real)                // 'log_loss': -loglike

  function OutputOf(mode: ReturnType, s: PassState): Output {
    match mode
    case DictMode => Ratings(s.table)
    case ListMode => Differentials(s.diffs)
    case LogLossMode => NegLogLike(-s.loglike)
  }

  /** fit_elos: the return type is checked before any fight is looked at. */
  function FitElosResult(fights: seq<Fight>, p: Params, returnType: string, nums: Numerics): Result<Output> {
    match ParseReturnType(returnType)
    case None => Err(InvalidReturnType)
    case Some(mode) =>
      match Run(fights, p, nums, |fights|)
      case Err(e) => Err(e)
      case Ok(s) => Ok(OutputOf(mode, s))
  }
}

/** The imperative pass of elo.py: a rating table updated in place, the loop of
    fit_elos over it, and the entry point elo with explicit parameters. Each method
    is proved to compute what module Elo defines. */
module EloPass {
  import opened Elo

  /** elo_dict, the table fit_elos builds afresh for each pass and mutates entry
      by entry. */
  class RatingTable {
    var entries: map<Id, Entry>
    var order: seq<Id>

    function Snapshot(): Table
      reads this
    {
      Table(entries, order)
    }

    constructor ()
      ensures Snapshot() == EmptyTable
    {
      entries := map[];
      order := [];
    }

    /** get_elo: the entry of id, created with score 1000, num 0 and extra 0 on
        its first appearance. */
    method GetElo(id: Id) returns (e: Entry)
      modifies this
      ensures Snapshot() == Touch(old(Snapshot()), id)
      ensures e == EntryOf(old(Snapshot()), id)
    {
      if id !in entries {
        entries := entries[id := NewEntry];
        order := order + [id];
      }
      e := entries[id];
    }

    /** elo_dict[id]['num'] += 1 */
    method IncNumInPlace(id: Id)
      requires id in entries
      modifies this
      ensures entries == IncNum(old(entries), id) && order == old(order)
    {
      entries := entries[id := entries[id].(num := entries[id].num + 1)];
    }

    /** elo_dict[id]['score'] += delta */
    method AddScoreInPlace(id: Id, delta: real)
      requires id in entries
      modifies this
      ensures entries == AddScore(old(entries), id, delta) && order == old(order)
    {
      entries := entries[id := entries[id].(score := entries[id].score + delta)];
    }

    /** elo_dict[id]['extra'] = 0 */
    method ResetExtraInPlace(id: Id)
      requires id in entries
      modifies this
      ensures entries == ResetExtra(old(entries), id) && order == old(order)
    {
      entries := entries[id := entries[id].(extra := 0)];
    }

    /** elo_dict[id]['extra'] += 1 */
    method IncExtraInPlace(id: Id)
      requires id in entries
      modifies this
      ensures entries == IncExtra(old(entries), id) && order == old(order)
    {
      entries := entries[id := entries[id].(extra := entries[id].extra + 1)];
    }

    /** elo.py:47-59: both scores move, then the bonus rules and the log-likelihood
        term of the result; returns that term. */
    method SettleFight(fight: Fight, leftK: real, rightK: real, expected: real, log: real -> real)
      returns (logTerm: real)
      requires fight.left in entries && fight.right in entries
      modifies this
      ensures entries == ResultUpdates(old(entries), fight, leftK, rightK, expected)
      ensures order == old(order)
      ensures logTerm == LogTerm(fight, expected, log)
    {
      AddScoreInPlace(fight.left, Movement(leftK, fight.result, expected));
      AddScoreInPlace(fight.right, -Movement(rightK, fight.result, expected));
      ghost var scored := entries;
      logTerm := 0.0;
      if fight.result == 1.0 {
        logTerm := log(expected);
        ResetExtraInPlace(fight.left);
        if fight.flag == 1 {
          IncExtraInPlace(fight.right);
        }
      } else if fight.result == 0.0 {
        logTerm := log(1.0 - expected);
        ResetExtraInPlace(fight.right);
        if fight.flag == 1 {
          IncExtraInPlace(fight.left);
        }
      }
      assert entries == BonusUpdates(scored, fight);
    }

    /** One iteration of the loop of fit_elos on the table: returns the fight's
        log-likelihood term and the pre-update effective ratings. */
    method Play(fight: Fight, at: nat, p: Params, nums: Numerics, ghost s: PassState)
      returns (r: Result<(real, (real, real))>)
      requires Snapshot() == s.table
      modifies this
      ensures Step(s, fight, at, p, nums).Err? <==> r.Err?
      ensures r.Err? ==> r.error == Step(s, fight, at, p, nums).error
      ensures r.Ok? ==> Snapshot() == Step(s, fight, at, p, nums).value.table
      ensures r.Ok? ==> s.loglike + r.value.0 == Step(s, fight, at, p, nums).value.loglike
      ensures r.Ok? ==> s.diffs + [r.value.1] == Step(s, fight, at, p, nums).value.diffs
    {
      var leftEntry := GetElo(fight.left);
      var rightEntry := GetElo(fight.right);
      ghost var entered := entries;
      var leftEff := Effective(leftEntry, p.extraFactor);
      var rightEff := Effective(rightEntry, p.extraFactor);
      var expected := nums.logistic(rightEff - leftEff);
      assert (leftEff, rightEff) == PreUpdateRatings(s.table, fight, p.extraFactor);
      IncNumInPlace(fight.left);
      IncNumInPlace(fight.right);
      // Both entries are read back after both increments, as the references do.
      assert entries[fight.left].num == CountAfter(s.table, fight, fight.left);
      assert entries[fight.right].num == CountAfter(s.table, fight, fight.right);
      var leftK := StepSize(p, entries[fight.left].num, at);
      if leftK.Err? {
        return Err(leftK.error);
      }
      var rightK := StepSize(p, entries[fight.right].num, at);
      if rightK.Err? {
        return Err(rightK.error);
      }
      var logTerm := SettleFight(fight, leftK.value, rightK.value, expected, nums.log);
      SettleIsInPlaceUpdates(s.table, fight, leftK.value, rightK.value, expected);
      assert entries == InPlaceUpdates(entered, fight, leftK.value, rightK.value, expected);
      r := Ok((logTerm, (leftEff, rightEff)));
    }
  }

  /** The loop of fit_elos: one left-to-right pass over a fresh table. The
      differentials are only collected when recordDiffs holds, as the source only
      collects them in 'list' mode; otherwise the list stays empty. */
  method Replay(fights: seq<Fight>, p: Params, nums: Numerics, recordDiffs: bool) returns (r: Result<PassState>)
    ensures r == Recorded(Run(fights, p, nums, |fights|), recordDiffs)
  {
    var table := new RatingTable();
    var loglike := 0.0;
    var diffs: seq<(real, real)> := [];
    var i := 0;
    ghost var s := InitialState;
    while i < |fights|
      invariant i <= |fights|
      invariant Run(fights, p, nums, i) == Ok(s)
      invariant table.Snapshot() == s.table
      invariant loglike == s.loglike
      invariant diffs == if recordDiffs then s.diffs else []
    {
      var played;
      played, s := Advance(table, fights, i, p, nums, s);
      if played.Err? {
        return Err(played.error);
      }
      loglike := loglike + played.value.0;
      if recordDiffs {
        diffs := diffs + [played.value.1];
      }
      i := i + 1;
    }
    r := Ok(PassState(table.Snapshot(), loglike, diffs));
  }

  /** The iteration of the loop of fit_elos for fight i, in terms of the whole
      pass: either the pass fails with the error of this fight, or it reaches the
      state after fight i + 1. */
  method Advance(table: RatingTable, fights: seq<Fight>, i: nat, p: Params, nums: Numerics, ghost s: PassState)
    returns (r: Result<(real, (real, real))>, ghost next: PassState)
    requires i < |fights|
    requires Run(fights, p, nums, i) == Ok(s)
    requires table.Snapshot() == s.table
    modifies table
    ensures r.Err? ==> Run(fights, p, nums, |fights|) == Err(r.error)
    ensures r.Ok? ==> Run(fights, p, nums, i + 1) == Ok(next) && table.Snapshot() == next.table &&
                      next.loglike == s.loglike + r.value.0 && next.diffs == s.diffs + [r.value.1]
  {
    RunNext(fights, p, nums, i);
    r := table.Play(fights[i], i, p, nums, s);
    if r.Err? {
      ErrorPersists(fights, p, nums, i + 1, |fights|);
      next := s;
    } else {
      next := Step(s, fights[i], i, p, nums).value;
    }
  }

  /** The outcome of a pass with the differentials dropped unless they are recorded. */
  function Recorded(pass: Result<PassState>, recordDiffs: bool): Result<PassState> {
    if pass.Ok? && !recordDiffs then Ok(pass.value.(diffs := [])) else pass
  }

  /** fit_elos: the return type is checked before any fight is processed or any
      entry created; then one pass, whose result is returned in the chosen mode. */
  method FitElos(fights: seq<Fight>, p: Params, returnType: string, nums: Numerics) returns (r: Result<Output>)
    ensures r == FitElosResult(fights, p, returnType, nums)
  {
    var mode;
    match ParseReturnType(returnType) {
      case None => return Err(InvalidReturnType);
      case Some(m) => mode := m;
    }
    var pass := Replay(fights, p, nums, mode == ListMode);
    if pass.Err? {
      return Err(pass.error);
    }
    match mode
    case DictMode => r := Ok(Ratings(pass.value.table));
    case ListMode => r := Ok(Differentials(pass.value.diffs));
    case LogLossMode => r := Ok(NegLogLike(-pass.value.loglike));
  }

  /** elo with explicit params: the input shape is checked first, then the
      lengths of K_num and K, and only then does the pass run. */
  method RunElo(ids: seq<(Id, Id)>, results: seq<real>, extras: seq<int>, returnType: string,
                params: Params, nums: Numerics)
    returns (r: Result<Output>)
    ensures !(|ids| == |results| && |results| == |extras|) ==> r == Err(ShapeMismatch)
    ensures |ids| == |results| && |results| == |extras| && |params.kNum| != |params.k| ==>
              r == Err(ParamLengthMismatch)
    ensures |ids| == |results| && |results| == |extras| && |params.kNum| == |params.k| ==>
              r == FitElosResult(CheckData(ids, results, extras).value, params, returnType, nums)
  {
    var checked := CheckData(ids, results, extras);
    if checked.Err? {
      return Err(checked.error);
    }
    if |params.kNum| != |params.k| {
      return Err(ParamLengthMismatch);
    }
    r := FitElos(checked.value, params, returnType, nums);
  }
}

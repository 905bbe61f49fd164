/** What the Elo pass of elo.py promises, proved about the model in module Elo:
    how the input is zipped, where a pass fails, what one fight does to the table,
    the log-likelihood and the differentials, and the bookkeeping of the whole pass. */
module EloProperties {
  import opened Elo

  // ---------------------------------------------------------------------------
  // check_data

  /** Zipping the three projections of a fight sequence gives that sequence back. */
  lemma CheckDataOfProjections(fights: seq<Fight>)
    ensures CheckData(PairsOf(fights), ResultsOf(fights), FlagsOf(fights)) == Ok(fights)
  {
    var r := CheckData(PairsOf(fights), ResultsOf(fights), FlagsOf(fights));
    assert |r.value| == |fights|;
    forall i | 0 <= i < |fights| ensures r.value[i] == fights[i] {
      assert PairsOf(fights)[i] == (fights[i].left, fights[i].right);
    }
    assert r.value == fights;
  }

  /** Projecting the zipped fights gives back the three inputs of check_data. */
  lemma ProjectionsOfCheckData(ids: seq<(Id, Id)>, results: seq<real>, extras: seq<int>)
    requires |ids| == |results| && |results| == |extras|
    ensures var fights := CheckData(ids, results, extras).value;
            PairsOf(fights) == ids && ResultsOf(fights) == results && FlagsOf(fights) == extras
  {
    var fights := CheckData(ids, results, extras).value;
    assert PairsOf(fights) == ids by {
      forall i | 0 <= i < |ids| ensures PairsOf(fights)[i] == ids[i] {
        assert fights[i] == Fight(ids[i].0, ids[i].1, results[i], extras[i]);
      }
    }
  }

  // ---------------------------------------------------------------------------
  // Where a pass fails

  /** The schedule has a step for a side whose count is n: some breakpoint
      exceeds n and the first such breakpoint has a step in K. */
  ghost predicate Covers(p: Params, n: int) {
    exists i :: IsFirstAbove(p.kNum, n, i) && i < |p.k|
  }

  /** No breakpoint exceeds n: the generator of the lookup is empty. */
  ghost predicate Exhausted(p: Params, n: int) {
    forall j :: 0 <= j < |p.kNum| ==> p.kNum[j] <= n
  }

  /** A fight fails exactly when the schedule does not cover the count of one of
      its sides after both increments. The left side is looked up first, so its
      error wins; a count at or above every breakpoint raises ScheduleExhausted,
      a first breakpoint without a step raises StepIndexOutOfRange. */
  lemma StepFailsIff(s: PassState, f: Fight, at: nat, p: Params, nums: Numerics)
    ensures Step(s, f, at, p, nums).Err? <==>
              !Covers(p, CountAfter(s.table, f, f.left)) || !Covers(p, CountAfter(s.table, f, f.right))
    ensures Exhausted(p, CountAfter(s.table, f, f.left)) ==>
              Step(s, f, at, p, nums) == Err(ScheduleExhausted(at))
    ensures !Exhausted(p, CountAfter(s.table, f, f.left)) && !Covers(p, CountAfter(s.table, f, f.left)) ==>
              Step(s, f, at, p, nums) == Err(StepIndexOutOfRange(at))
    ensures Covers(p, CountAfter(s.table, f, f.left)) && Exhausted(p, CountAfter(s.table, f, f.right)) ==>
              Step(s, f, at, p, nums) == Err(ScheduleExhausted(at))
    ensures Covers(p, CountAfter(s.table, f, f.left)) && !Exhausted(p, CountAfter(s.table, f, f.right)) &&
            !Covers(p, CountAfter(s.table, f, f.right)) ==>
              Step(s, f, at, p, nums) == Err(StepIndexOutOfRange(at))
  {
    StepSizeSelects(p, CountAfter(s.table, f, f.left), at);
    StepSizeSelects(p, CountAfter(s.table, f, f.right), at);
  }

  /** A pass that got through n fights got through every shorter prefix. */
  lemma RunOkPrefix(fights: seq<Fight>, p: Params, nums: Numerics, j: nat, n: nat)
    requires j <= n <= |fights|
    requires Run(fights, p, nums, n).Ok?
    ensures Run(fights, p, nums, j).Ok?
  {
    if Run(fights, p, nums, j).Err? {
      ErrorPersists(fights, p, nums, j, n);
    }
  }

  /** A failed pass stopped at one fight: every fight before it was processed, and
      that fight's own step raised the error, which names its index. */
  lemma {:induction false} RunStopsAtFirstFailure(fights: seq<Fight>, p: Params, nums: Numerics, n: nat)
    requires n <= |fights|
    requires Run(fights, p, nums, n).Err?
    ensures var e := Run(fights, p, nums, n).error;
            (e.ScheduleExhausted? || e.StepIndexOutOfRange?) && e.fight < n &&
            Run(fights, p, nums, e.fight).Ok? &&
            Step(Run(fights, p, nums, e.fight).value, fights[e.fight], e.fight, p, nums) == Err(e)
  {
    if Run(fights, p, nums, n - 1).Err? {
      RunStopsAtFirstFailure(fights, p, nums, n - 1);
    } else {
      var s := Run(fights, p, nums, n - 1).value;
      var f := fights[n - 1];
      StepSizeSelects(p, CountAfter(s.table, f, f.left), n - 1);
      StepSizeSelects(p, CountAfter(s.table, f, f.right), n - 1);
    }
  }

  /** No breakpoint above 1 (K_num = [0], say): the very first fight looks up a
      count of at least 1 and the pass fails there, whatever the results. */
  lemma LowScheduleFailsAtFirstFight(fights: seq<Fight>, p: Params, nums: Numerics)
    requires |fights| > 0
    requires forall j :: 0 <= j < |p.kNum| ==> p.kNum[j] <= 1
    ensures Run(fights, p, nums, |fights|) == Err(ScheduleExhausted(0))
  {
    var f := fights[0];
    StepFailsIff(InitialState, f, 0, p, nums);
    assert Run(fights, p, nums, 1) == Err(ScheduleExhausted(0));
    ErrorPersists(fights, p, nums, 1, |fights|);
  }

  // ---------------------------------------------------------------------------
  // One fight

  /** A fight between two different competitors: each score moves by its side's
      step times (result - expected), in opposite directions; each count goes up by
      one; the step of each side is the schedule's for its new count; no other
      entry is created or changed. */
  lemma StepBetweenTwo(s: PassState, f: Fight, at: nat, p: Params, nums: Numerics, lk: real, rk: real)
    requires f.left != f.right
    requires StepSize(p, CountAfter(s.table, f, f.left), at) == Ok(lk)
    requires StepSize(p, CountAfter(s.table, f, f.right), at) == Ok(rk)
    ensures Step(s, f, at, p, nums).Ok?
    ensures var t := Step(s, f, at, p, nums).value.table;
            var e := Expected(s.table, f, p, nums);
            var l := EntryOf(s.table, f.left);
            var r := EntryOf(s.table, f.right);
            f.left in t.entries && f.right in t.entries &&
            t.entries[f.left].score == l.score + lk * (f.result - e) &&
            t.entries[f.right].score == r.score - rk * (f.result - e) &&
            t.entries[f.left].num == l.num + 1 && t.entries[f.right].num == r.num + 1
    ensures exists i :: IsFirstAbove(p.kNum, EntryOf(s.table, f.left).num + 1, i) && i < |p.k| && lk == p.k[i]
    ensures exists i :: IsFirstAbove(p.kNum, EntryOf(s.table, f.right).num + 1, i) && i < |p.k| && rk == p.k[i]
    ensures var t := Step(s, f, at, p, nums).value.table;
            forall id :: id != f.left && id != f.right ==>
              (id in t.entries <==> id in s.table.entries) &&
              (id in t.entries ==> t.entries[id] == s.table.entries[id])
  {
    StepSizeSelects(p, CountAfter(s.table, f, f.left), at);
    StepSizeSelects(p, CountAfter(s.table, f, f.right), at);
  }

  /** When both sides get the same step (a constant K, or equal counts), a fight
      between two competitors only moves points from one to the other. */
  lemma StepConservesScoreSum(s: PassState, f: Fight, at: nat, p: Params, nums: Numerics)
    requires f.left != f.right
    requires Step(s, f, at, p, nums).Ok?
    requires StepSize(p, CountAfter(s.table, f, f.left), at) == StepSize(p, CountAfter(s.table, f, f.right), at)
    ensures var t := Step(s, f, at, p, nums).value.table;
            t.entries[f.left].score + t.entries[f.right].score ==
              EntryOf(s.table, f.left).score + EntryOf(s.table, f.right).score
  {
    var k := StepSize(p, CountAfter(s.table, f, f.left), at).value;
    StepBetweenTwo(s, f, at, p, nums, k, k);
  }

  /** With positive steps and a proper logistic, doing better than expected raises
      the left score and lowers the right one, and doing worse does the opposite;
      in particular a win (1) always rewards the left side and a loss (0) the right. */
  lemma StepRewardsTheWinner(s: PassState, f: Fight, at: nat, p: Params, nums: Numerics, lk: real, rk: real)
    requires IsProbability(nums.logistic)
    requires f.left != f.right
    requires StepSize(p, CountAfter(s.table, f, f.left), at) == Ok(lk) && lk > 0.0
    requires StepSize(p, CountAfter(s.table, f, f.right), at) == Ok(rk) && rk > 0.0
    ensures var t := Step(s, f, at, p, nums).value.table;
            var e := Expected(s.table, f, p, nums);
            f.result > e ==> t.entries[f.left].score > EntryOf(s.table, f.left).score &&
                             t.entries[f.right].score < EntryOf(s.table, f.right).score
    ensures var t := Step(s, f, at, p, nums).value.table;
            var e := Expected(s.table, f, p, nums);
            f.result < e ==> t.entries[f.left].score < EntryOf(s.table, f.left).score &&
                             t.entries[f.right].score > EntryOf(s.table, f.right).score
    ensures var e := Expected(s.table, f, p, nums);
            0.0 < e < 1.0 && (f.result == 1.0 ==> f.result > e) && (f.result == 0.0 ==> f.result < e)
  {
    StepBetweenTwo(s, f, at, p, nums, lk, rk);
    var t := Step(s, f, at, p, nums).value.table;
    var e := Expected(s.table, f, p, nums);
    var pre := PreUpdateRatings(s.table, f, p.extraFactor);
    assert e == nums.logistic(pre.1 - pre.0);
    var dl := lk * (f.result - e);
    var dr := rk * (f.result - e);
    assert t.entries[f.left].score == EntryOf(s.table, f.left).score + dl;
    assert t.entries[f.right].score == EntryOf(s.table, f.right).score - dr;
    MovementSign(lk, f.result, e);
    MovementSign(rk, f.result, e);
  }

  /** A positive step moves a rating in the direction of result - expected. */
  lemma MovementSign(k: real, result: real, expected: real)
    requires k > 0.0
    ensures result > expected ==> k * (result - expected) > 0.0
    ensures result < expected ==> k * (result - expected) < 0.0
  {
    if result < expected {
      assert k * (result - expected) == -(k * (expected - result));
    }
  }

  /** The bonus rules between two competitors: a win (1) clears the left counter
      and adds the flag to the right one; a loss (0) mirrors it; any other result
      leaves both counters alone. */
  lemma StepBonus(s: PassState, f: Fight, at: nat, p: Params, nums: Numerics)
    requires f.left != f.right
    requires Step(s, f, at, p, nums).Ok?
    ensures var t := Step(s, f, at, p, nums).value.table;
            var l := EntryOf(s.table, f.left);
            var r := EntryOf(s.table, f.right);
            var bonus := if f.flag == 1 then 1 else 0;
            (f.result == 1.0 ==> t.entries[f.left].extra == 0 &&
                                 t.entries[f.right].extra == r.extra + bonus) &&
            (f.result == 0.0 ==> t.entries[f.right].extra == 0 &&
                                 t.entries[f.left].extra == l.extra + bonus) &&
            (f.result != 1.0 && f.result != 0.0 ==> t.entries[f.left].extra == l.extra &&
                                                     t.entries[f.right].extra == r.extra)
  {
  }

  /** The log-likelihood of any fight, a competitor on both sides included: a win
      (1) adds log(expected), a loss (0) adds log(1 - expected), and any other
      result leaves it alone. */
  lemma StepLogLike(s: PassState, f: Fight, at: nat, p: Params, nums: Numerics)
    requires Step(s, f, at, p, nums).Ok?
    ensures var s' := Step(s, f, at, p, nums).value;
            var e := Expected(s.table, f, p, nums);
            (f.result == 1.0 ==> s'.loglike == s.loglike + nums.log(e)) &&
            (f.result == 0.0 ==> s'.loglike == s.loglike + nums.log(1.0 - e)) &&
            (f.result != 1.0 && f.result != 0.0 ==> s'.loglike == s.loglike)
  {
  }

  /** A competitor on both sides of a fight: both lookups see the same count, two
      more than before, so the two movements cancel and the score stays; a clean
      result clears the counter and then adds the flag. */
  lemma StepSelfFight(s: PassState, f: Fight, at: nat, p: Params, nums: Numerics)
    requires f.left == f.right
    requires Step(s, f, at, p, nums).Ok?
    ensures var t := Step(s, f, at, p, nums).value.table;
            var l := EntryOf(s.table, f.left);
            f.left in t.entries &&
            t.entries[f.left].score == l.score &&
            t.entries[f.left].num == l.num + 2 &&
            t.entries[f.left].extra == (if f.result == 1.0 || f.result == 0.0
                                        then (if f.flag == 1 then 1 else 0) else l.extra)
    ensures var t := Step(s, f, at, p, nums).value.table;
            forall id :: id != f.left ==>
              (id in t.entries <==> id in s.table.entries) &&
              (id in t.entries ==> t.entries[id] == s.table.entries[id])
  {
  }

  /** With a proper logistic and logarithm, no fight raises the log-likelihood. */
  lemma StepLogLikeNonIncreasing(s: PassState, f: Fight, at: nat, p: Params, nums: Numerics, s': PassState)
    requires IsProbability(nums.logistic) && LogOfProbabilityNonPositive(nums.log)
    requires Step(s, f, at, p, nums) == Ok(s')
    ensures s'.loglike <= s.loglike
  {
    var pre := PreUpdateRatings(s.table, f, p.extraFactor);
    var e := Expected(s.table, f, p, nums);
    assert e == nums.logistic(pre.1 - pre.0);
    assert 0.0 < 1.0 - e < 1.0;
  }

  // ---------------------------------------------------------------------------
  // The whole pass

  /** The ids of the first n fights, left then right, in the order get_elo sees them. */
  function Slots(fights: seq<Fight>, n: nat): (r: seq<Id>)
    requires n <= |fights|
    ensures |r| == 2 * n
  {
    if n == 0 then [] else Slots(fights, n - 1) + [fights[n - 1].left] + [fights[n - 1].right]
  }

  /** The distinct elements of s in order of first occurrence. */
  function FirstSeen(s: seq<Id>): (r: seq<Id>)
    ensures Distinct(r)
    ensures forall id :: id in r <==> id in s
  {
    if |s| == 0 then []
    else
      var init := s[..|s| - 1];
      assert s == init + [s[|s| - 1]];
      var d := FirstSeen(init);
      if s[|s| - 1] in d then d else d + [s[|s| - 1]]
  }

  lemma FirstSeenSnoc(s: seq<Id>, x: Id)
    ensures FirstSeen(s + [x]) == FirstSeen(s) + (if x in s then [] else [x])
  {
    assert (s + [x])[..|s + [x]| - 1] == s;
  }

  /** What one successful fight does to the keys, the order and the counts. */
  lemma StepBookkeeping(s: PassState, f: Fight, at: nat, p: Params, nums: Numerics)
    requires Step(s, f, at, p, nums).Ok?
    ensures var t := Step(s, f, at, p, nums).value.table;
            t.order == s.table.order + Newcomers(s.table, f) &&
            (forall id :: id in t.entries <==> id in s.table.entries || id == f.left || id == f.right) &&
            (forall id :: EntryOf(t, id).num == CountAfter(s.table, f, id))
  {
  }

  /** The table after n fights has exactly the ids seen so far as keys, in order of
      first appearance, each with the number of slots it filled as its count. */
  lemma RunBookkeeping(fights: seq<Fight>, p: Params, nums: Numerics, n: nat)
    requires n <= |fights|
    requires Run(fights, p, nums, n).Ok?
    ensures var t := Run(fights, p, nums, n).value.table;
            (forall id :: id in t.entries <==> id in Slots(fights, n)) &&
            t.order == FirstSeen(Slots(fights, n)) && WellFormed(t) &&
            (forall id :: id in t.entries ==> t.entries[id].num == multiset(Slots(fights, n))[id])
  {
    RunListed(fights, p, nums, n);
    RunCounts(fights, p, nums, n);
    BookkeepingFacts(Run(fights, p, nums, n).value.table, Slots(fights, n));
  }

  lemma BookkeepingFacts(t: Table, slots: seq<Id>)
    requires Listed(t, slots) && CountsAre(t, slots)
    ensures (forall id :: id in t.entries <==> id in slots) && WellFormed(t)
    ensures forall id :: id in t.entries ==> t.entries[id].num == multiset(slots)[id]
  {
    forall id | id in t.entries ensures t.entries[id].num == multiset(slots)[id] {
      assert EntryOf(t, id).num == Occurrences(slots, id);
    }
  }

  ghost predicate KeysAre(t: Table, slots: seq<Id>) {
    forall id :: id in t.entries <==> id in slots
  }

  /** Every id, present or not, has as its count the number of slots it fills. */
  ghost predicate CountsAre(t: Table, slots: seq<Id>) {
    forall id {:trigger Occurrences(slots, id)} :: EntryOf(t, id).num == Occurrences(slots, id)
  }

  /** How many slots id fills: multiset(slots)[id]. */
  function Occurrences(slots: seq<Id>, id: Id): (r: nat)
    ensures r == multiset(slots)[id]
  {
    if |slots| == 0 then 0
    else
      assert slots == slots[..|slots| - 1] + [slots[|slots| - 1]];
      Occurrences(slots[..|slots| - 1], id) + (if slots[|slots| - 1] == id then 1 else 0)
  }

  /** The keys are the ids of slots, listed in order of first appearance. */
  ghost predicate Listed(t: Table, slots: seq<Id>) {
    KeysAre(t, slots) && t.order == FirstSeen(slots)
  }

  lemma {:induction false} RunListed(fights: seq<Fight>, p: Params, nums: Numerics, n: nat)
    requires n <= |fights|
    requires Run(fights, p, nums, n).Ok?
    ensures Listed(Run(fights, p, nums, n).value.table, Slots(fights, n))
  {
    if n > 0 {
      var before, after := Slots(fights, n - 1), Slots(fights, n);
      var t := Run(fights, p, nums, n).value.table;
      RunOkPrefix(fights, p, nums, n - 1, n);
      var s := Run(fights, p, nums, n - 1).value;
      RunListed(fights, p, nums, n - 1);
      StepKeepsListed(s, fights[n - 1], n - 1, p, nums, before, after, t);
    }
  }

  lemma {:induction false} RunCounts(fights: seq<Fight>, p: Params, nums: Numerics, n: nat)
    requires n <= |fights|
    requires Run(fights, p, nums, n).Ok?
    ensures CountsAre(Run(fights, p, nums, n).value.table, Slots(fights, n))
  {
    if n > 0 {
      var before, after := Slots(fights, n - 1), Slots(fights, n);
      var t := Run(fights, p, nums, n).value.table;
      RunOkPrefix(fights, p, nums, n - 1, n);
      var s := Run(fights, p, nums, n - 1).value;
      RunCounts(fights, p, nums, n - 1);
      StepKeepsCounts(s, fights[n - 1], n - 1, p, nums, before, after, t);
    }
  }

  lemma StepKeepsListed(s: PassState, f: Fight, at: nat, p: Params, nums: Numerics,
                        before: seq<Id>, after: seq<Id>, t: Table)
    requires Listed(s.table, before) && after == before + [f.left] + [f.right]
    requires Step(s, f, at, p, nums).Ok? && t == Step(s, f, at, p, nums).value.table
    ensures Listed(t, after)
  {
    StepBookkeeping(s, f, at, p, nums);
    KeysStep(s.table, t, f, before);
    OrderStep(s.table, t, f, before);
  }

  lemma StepKeepsCounts(s: PassState, f: Fight, at: nat, p: Params, nums: Numerics,
                        before: seq<Id>, after: seq<Id>, t: Table)
    requires CountsAre(s.table, before)
    requires after == before + [f.left] + [f.right]
    requires Step(s, f, at, p, nums).Ok? && t == Step(s, f, at, p, nums).value.table
    ensures CountsAre(t, after)
  {
    StepBookkeeping(s, f, at, p, nums);
    CountsStep(s.table, t, f, before);
  }

  lemma KeysStep(t: Table, t': Table, f: Fight, before: seq<Id>)
    requires forall id :: id in t.entries <==> id in before
    requires forall id :: id in t'.entries <==> id in t.entries || id == f.left || id == f.right
    ensures forall id :: id in t'.entries <==> id in before + [f.left] + [f.right]
  {
  }

  lemma OrderStep(t: Table, t': Table, f: Fight, before: seq<Id>)
    requires f.left in t.entries <==> f.left in before
    requires f.right in t.entries <==> f.right in before
    requires t.order == FirstSeen(before)
    requires t'.order == t.order + Newcomers(t, f)
    ensures t'.order == FirstSeen(before + [f.left] + [f.right])
  {
    var withLeft := before + [f.left];
    var leftNew := if f.left in before then [] else [f.left];
    var rightNew := if f.right in withLeft then [] else [f.right];
    FirstSeenSnoc(before, f.left);
    assert FirstSeen(withLeft) == FirstSeen(before) + leftNew;
    FirstSeenSnoc(withLeft, f.right);
    assert FirstSeen(withLeft + [f.right]) == FirstSeen(withLeft) + rightNew;
    if f.right == f.left {
      assert rightNew == [];
    } else {
      assert f.right in withLeft <==> f.right in before;
    }
    assert Newcomers(t, f) == leftNew + rightNew;
  }

  lemma CountsStep(t: Table, t': Table, f: Fight, before: seq<Id>)
    requires forall id :: EntryOf(t, id).num == Occurrences(before, id)
    requires forall id :: EntryOf(t', id).num == CountAfter(t, f, id)
    ensures forall id :: EntryOf(t', id).num == Occurrences(before + [f.left] + [f.right], id)
  {
    assert (before + [f.left] + [f.right])[..|before| + 1] == before + [f.left];
    assert (before + [f.left])[..|before|] == before;
  }

  /** The differentials: one pair per fight, the effective ratings of both sides
      just before that fight. */
  lemma RunDifferentials(fights: seq<Fight>, p: Params, nums: Numerics, n: nat)
    requires n <= |fights|
    requires Run(fights, p, nums, n).Ok?
    ensures |Run(fights, p, nums, n).value.diffs| == n
    ensures forall i :: 0 <= i < n ==>
              Run(fights, p, nums, i).Ok? &&
              Run(fights, p, nums, n).value.diffs[i] ==
                PreUpdateRatings(Run(fights, p, nums, i).value.table, fights[i], p.extraFactor)
  {
    DifferentialsLength(fights, p, nums, n);
    forall i | 0 <= i < n
      ensures Run(fights, p, nums, i).Ok? &&
              Run(fights, p, nums, n).value.diffs[i] ==
                PreUpdateRatings(Run(fights, p, nums, i).value.table, fights[i], p.extraFactor)
    {
      DifferentialAt(fights, p, nums, n, i);
    }
  }

  lemma {:induction false} DifferentialsLength(fights: seq<Fight>, p: Params, nums: Numerics, n: nat)
    requires n <= |fights|
    requires Run(fights, p, nums, n).Ok?
    ensures |Run(fights, p, nums, n).value.diffs| == n
  {
    if n > 0 {
      RunOkPrefix(fights, p, nums, n - 1, n);
      DifferentialsLength(fights, p, nums, n - 1);
      StepAppendsDifferential(Run(fights, p, nums, n - 1).value, fights[n - 1], n - 1, p, nums,
                              Run(fights, p, nums, n).value);
    }
  }

  lemma {:induction false} DifferentialAt(fights: seq<Fight>, p: Params, nums: Numerics, n: nat, i: nat)
    requires i < n <= |fights|
    requires Run(fights, p, nums, n).Ok?
    ensures Run(fights, p, nums, i).Ok?
    ensures |Run(fights, p, nums, n).value.diffs| == n
    ensures Run(fights, p, nums, n).value.diffs[i] ==
              PreUpdateRatings(Run(fights, p, nums, i).value.table, fights[i], p.extraFactor)
  {
    RunOkPrefix(fights, p, nums, n - 1, n);
    RunOkPrefix(fights, p, nums, i, n);
    DifferentialsLength(fights, p, nums, n - 1);
    DifferentialsLength(fights, p, nums, n);
    StepAppendsDifferential(Run(fights, p, nums, n - 1).value, fights[n - 1], n - 1, p, nums,
                            Run(fights, p, nums, n).value);
    if i < n - 1 {
      DifferentialAt(fights, p, nums, n - 1, i);
    }
  }

  lemma StepAppendsDifferential(s: PassState, f: Fight, at: nat, p: Params, nums: Numerics, s': PassState)
    requires Step(s, f, at, p, nums) == Ok(s')
    ensures s'.diffs == s.diffs + [PreUpdateRatings(s.table, f, p.extraFactor)]
  {
  }

  /** With a proper logistic and logarithm the log-likelihood of a pass is never positive. */
  lemma {:induction false} RunLogLikeNonPositive(fights: seq<Fight>, p: Params, nums: Numerics, n: nat)
    requires IsProbability(nums.logistic) && LogOfProbabilityNonPositive(nums.log)
    requires n <= |fights|
    requires Run(fights, p, nums, n).Ok?
    ensures Run(fights, p, nums, n).value.loglike <= 0.0
  {
    if n > 0 {
      RunOkPrefix(fights, p, nums, n - 1, n);
      RunLogLikeNonPositive(fights, p, nums, n - 1);
      StepLogLikeNonIncreasing(Run(fights, p, nums, n - 1).value, fights[n - 1], n - 1, p, nums,
                               Run(fights, p, nums, n).value);
    }
  }

  // ---------------------------------------------------------------------------
  // fit_elos

  /** Any return type other than 'dict', 'list' and 'log_loss' is refused before
      any fight is looked at, even when the pass itself would fail. */
  lemma InvalidReturnTypeRejected(fights: seq<Fight>, p: Params, returnType: string, nums: Numerics)
    requires returnType != "dict" && returnType != "list" && returnType != "log_loss"
    ensures FitElosResult(fights, p, returnType, nums) == Err(InvalidReturnType)
  {
  }

  /** 'dict' returns the table: one well-formed entry per competitor seen, in order
      of first appearance, each counting the fights it took part in. */
  lemma DictModeReturnsTable(fights: seq<Fight>, p: Params, nums: Numerics)
    requires FitElosResult(fights, p, "dict", nums).Ok?
    ensures var out := FitElosResult(fights, p, "dict", nums).value;
            var slots := Slots(fights, |fights|);
            out.Ratings? && WellFormed(out.table) &&
            (forall id :: id in out.table.entries <==> id in slots) &&
            out.table.order == FirstSeen(slots) &&
            (forall id :: id in out.table.entries ==> out.table.entries[id].num == multiset(slots)[id])
  {
    RunBookkeeping(fights, p, nums, |fights|);
  }

  /** 'list' returns one pair per fight: the effective ratings of both sides just
      before it. */
  lemma ListModeReturnsDifferentials(fights: seq<Fight>, p: Params, nums: Numerics)
    requires FitElosResult(fights, p, "list", nums).Ok?
    ensures var out := FitElosResult(fights, p, "list", nums).value;
            out.Differentials? && |out.pairs| == |fights| &&
            forall i :: 0 <= i < |fights| ==>
              Run(fights, p, nums, i).Ok? &&
              out.pairs[i] == PreUpdateRatings(Run(fights, p, nums, i).value.table, fights[i], p.extraFactor)
  {
    RunDifferentials(fights, p, nums, |fights|);
  }

  /** 'log_loss' returns the negated log-likelihood, which is never negative. */
  lemma LogLossNonNegative(fights: seq<Fight>, p: Params, nums: Numerics)
    requires IsProbability(nums.logistic) && LogOfProbabilityNonPositive(nums.log)
    requires FitElosResult(fights, p, "log_loss", nums).Ok?
    ensures var out := FitElosResult(fights, p, "log_loss", nums).value;
            out.NegLogLike? && out.value >= 0.0
  {
    RunLogLikeNonPositive(fights, p, nums, |fights|);
  }

  // ---------------------------------------------------------------------------
  // Worked examples

  /** The breakpoints 0, 5, 10, 15, 20 that elo.py fixes for its optimizer, with
      step 32 at each of them (elo.py fits the steps; 32 is chosen here). */
  const FixedBreakpointsStep32 := Params([0, 5, 10, 15, 20], [32.0, 32.0, 32.0, 32.0, 32.0], 0.0)

  /** A beats B from 1000 each with the fixed breakpoints, step 32 and no bonus weight: the
      expectation is 1/2, so A ends at 1016 and B at 984. */
  lemma FirstWinExample(nums: Numerics)
    requires nums.logistic(0.0) == 0.5
    ensures var fights := [Fight("A", "B", 1.0, 0)];
            var r := Run(fights, FixedBreakpointsStep32, nums, 1);
            r.Ok? && r.value.table.order == ["A", "B"] &&
            r.value.table.entries == map["A" := Entry(1016.0, 1, 0), "B" := Entry(984.0, 1, 0)]
  {
    var fights := [Fight("A", "B", 1.0, 0)];
    assert "A" != "B";
    StepSizeSelects(FixedBreakpointsStep32, 1, 0);
    assert StepSize(FixedBreakpointsStep32, 1, 0) == Ok(32.0);
    StepBetweenTwo(InitialState, fights[0], 0, FixedBreakpointsStep32, nums, 32.0, 32.0);
  }

  /** With breakpoints 0 and 3, a pair of competitors meeting three times fails at
      the third meeting (index 2), the first one whose count exceeds every
      breakpoint, whatever the results. */
  lemma ScheduleRunsOutExample(f: Fight, nums: Numerics)
    requires f.left != f.right
    ensures Run([f, f, f], Params([0, 3], [32.0, 32.0], 0.0), nums, 3) == Err(ScheduleExhausted(2))
  {
    var fights := [f, f, f];
    var p := Params([0, 3], [32.0, 32.0], 0.0);
    assert StepSize(p, 1, 0) == Ok(32.0);
    assert StepSize(p, 2, 1) == Ok(32.0);
    assert StepSize(p, 3, 2) == Err(ScheduleExhausted(2));
    RunNext(fights, p, nums, 0);
    StepBetweenTwo(InitialState, f, 0, p, nums, 32.0, 32.0);
    var s1 := Run(fights, p, nums, 1).value;
    RunNext(fights, p, nums, 1);
    StepBetweenTwo(s1, f, 1, p, nums, 32.0, 32.0);
    var s2 := Run(fights, p, nums, 2).value;
    RunNext(fights, p, nums, 2);
    assert CountAfter(s2.table, f, f.left) == 3;
  }
}

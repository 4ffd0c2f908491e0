/** The optimal assignment of sessions to processes: a memoised search over bitmasks. */
module Assignment {
  import opened Outcomes
  import opened BitMask

  const UNMATCHED_PROCESS_PENALTY: int := 30 * 24 * 60 * 60 * 1000

  /** Entry p names the session given to process p, or None. */
  type Plan = seq<Option<nat>>

  /** A cost matrix indexed by session, then process. */
  predicate Matrix(cost: seq<seq<int>>, processes: nat) {
    forall s :: 0 <= s < |cost| ==> |cost[s]| == processes
  }

  // ----- What an optimal assignment is, independently of the search -----

  /** Every named session exists and none is named twice. */
  predicate OneToOne(plan: Plan, sessions: nat) {
    && (forall i :: 0 <= i < |plan| && plan[i].Some? ==> plan[i].value < sessions)
    && (forall i, j :: 0 <= i < j < |plan| && plan[i].Some? && plan[j].Some? ==> plan[i].value != plan[j].value)
  }

  function EntryCost(cost: seq<seq<int>>, processes: nat, p: nat, entry: Option<nat>): int
    requires Matrix(cost, processes) && p < processes
    requires entry.Some? ==> entry.value < |cost|
  {
    if entry.Some? then cost[entry.value][p] else UNMATCHED_PROCESS_PENALTY
  }

  /** Matched costs plus the penalty per unmatched process, for a plan of the processes from p on. */
  function Total(cost: seq<seq<int>>, processes: nat, p: nat, plan: Plan): int
    requires Matrix(cost, processes) && p + |plan| == processes && OneToOne(plan, |cost|)
    decreases |plan|
  {
    if |plan| == 0 then 0
    else EntryCost(cost, processes, p, plan[0]) + Total(cost, processes, p + 1, plan[1..])
  }

  // ----- The recurrence the search computes -----

  datatype Best = Best(cost: int, choice: Option<nat>)

  function Solve(cost: seq<seq<int>>, processes: nat, p: nat, mask: nat): int
    requires Matrix(cost, processes)
    decreases processes - p, |cost| + 1
  {
    if p >= processes then 0 else Scan(cost, processes, p, mask, |cost|).cost
  }

  /** The best cost and choice for process p once the sessions below `upto` were tried. */
  function Scan(cost: seq<seq<int>>, processes: nat, p: nat, mask: nat, upto: nat): Best
    requires Matrix(cost, processes) && p < processes && upto <= |cost|
    decreases processes - p, upto
  {
    if upto == 0 then
      Best(Solve(cost, processes, p + 1, mask) + UNMATCHED_PROCESS_PENALTY, None)
    else
      var s := upto - 1;
      var before := Scan(cost, processes, p, mask, s);
      if Has(mask, s) then before
      else
        var total := cost[s][p] + Solve(cost, processes, p + 1, With(mask, s));
        if total < before.cost then Best(total, Some(s)) else before
  }

  function Choice(cost: seq<seq<int>>, processes: nat, p: nat, mask: nat): Option<nat>
    requires Matrix(cost, processes) && p < processes
  {
    Scan(cost, processes, p, mask, |cost|).choice
  }

  function MaskAfter(mask: nat, entry: Option<nat>): nat {
    if entry.Some? then With(mask, entry.value) else mask
  }

  /** The plan obtained by following the stored choices from process p. */
  function Follow(cost: seq<seq<int>>, processes: nat, p: nat, mask: nat): (plan: Plan)
    requires Matrix(cost, processes) && p <= processes
    ensures |plan| == processes - p
    decreases processes - p
  {
    if p == processes then []
    else
      var c := Choice(cost, processes, p, mask);
      [c] + Follow(cost, processes, p + 1, MaskAfter(mask, c))
  }

  // ----- Optimality of the recurrence -----

  predicate Avoids(plan: Plan, mask: nat) {
    forall i :: 0 <= i < |plan| && plan[i].Some? ==> !Has(mask, plan[i].value)
  }

  lemma {:induction false} ScanBounds(cost: seq<seq<int>>, processes: nat, p: nat, mask: nat, upto: nat, s: nat)
    requires Matrix(cost, processes) && p < processes && upto <= |cost|
    ensures Scan(cost, processes, p, mask, upto).cost <= Solve(cost, processes, p + 1, mask) + UNMATCHED_PROCESS_PENALTY
    ensures s < upto && !Has(mask, s) ==>
              Scan(cost, processes, p, mask, upto).cost <= cost[s][p] + Solve(cost, processes, p + 1, With(mask, s))
    decreases upto
  {
    if upto > 0 {
      ScanBounds(cost, processes, p, mask, upto - 1, s);
    }
  }

  lemma {:induction false} ScanAttained(cost: seq<seq<int>>, processes: nat, p: nat, mask: nat, upto: nat)
    requires Matrix(cost, processes) && p < processes && upto <= |cost|
    ensures var b := Scan(cost, processes, p, mask, upto);
            && (b.choice.Some? ==> b.choice.value < |cost| && !Has(mask, b.choice.value))
            && b.cost == EntryCost(cost, processes, p, b.choice)
                         + Solve(cost, processes, p + 1, MaskAfter(mask, b.choice))
    decreases upto
  {
    if upto > 0 {
      ScanAttained(cost, processes, p, mask, upto - 1);
    }
  }

  /** No one-to-one plan over the still free sessions is cheaper than the recurrence. */
  lemma {:induction false} SolveIsLowerBound(cost: seq<seq<int>>, processes: nat, p: nat, mask: nat, plan: Plan)
    requires Matrix(cost, processes) && p + |plan| == processes
    requires OneToOne(plan, |cost|) && Avoids(plan, mask)
    ensures Solve(cost, processes, p, mask) <= Total(cost, processes, p, plan)
    decreases |plan|
  {
    if |plan| > 0 {
      var rest := plan[1..];
      var after := MaskAfter(mask, plan[0]);
      assert forall i :: 0 <= i < |rest| ==> rest[i] == plan[i + 1];
      forall i | 0 <= i < |rest| && rest[i].Some? ensures !Has(after, rest[i].value) {
        if plan[0].Some? {
          WithHas(mask, plan[0].value, rest[i].value);
        }
      }
      SolveIsLowerBound(cost, processes, p + 1, after, rest);
      ScanBounds(cost, processes, p, mask, |cost|, plan[0].GetOr(0));
    }
  }

  /** Following the choices gives a one-to-one plan over free sessions whose total is the recurrence's value. */
  lemma {:induction false} FollowAttains(cost: seq<seq<int>>, processes: nat, p: nat, mask: nat)
    requires Matrix(cost, processes) && p <= processes
    ensures var plan := Follow(cost, processes, p, mask);
            && OneToOne(plan, |cost|) && Avoids(plan, mask)
            && Total(cost, processes, p, plan) == Solve(cost, processes, p, mask)
    decreases processes - p
  {
    if p < processes {
      var c := Choice(cost, processes, p, mask);
      var after := MaskAfter(mask, c);
      var rest := Follow(cost, processes, p + 1, after);
      var plan := Follow(cost, processes, p, mask);
      ScanAttained(cost, processes, p, mask, |cost|);
      FollowAttains(cost, processes, p + 1, after);
      assert plan == [c] + rest && plan[1..] == rest;
      forall i | 0 <= i < |rest| && rest[i].Some?
        ensures !Has(mask, rest[i].value) && (c.Some? ==> rest[i].value != c.value)
      {
        if c.Some? {
          WithHas(mask, c.value, rest[i].value);
        }
      }
    }
  }

  /** The plan of the search is one-to-one and no one-to-one plan has a smaller total. */
  lemma FollowIsOptimal(cost: seq<seq<int>>, processes: nat, other: Plan)
    requires Matrix(cost, processes) && |other| == processes && OneToOne(other, |cost|)
    ensures OneToOne(Follow(cost, processes, 0, 0), |cost|)
    ensures Total(cost, processes, 0, Follow(cost, processes, 0, 0)) <= Total(cost, processes, 0, other)
  {
    forall s: nat ensures !Has(0, s) { ZeroHasNone(s); }
    SolveIsLowerBound(cost, processes, 0, 0, other);
    FollowAttains(cost, processes, 0, 0);
  }

  // ----- Chosen pairs are always cheaper than leaving the process unmatched -----

  /** Using up one more session never makes the remaining processes cheaper. */
  lemma SolveMonotone(cost: seq<seq<int>>, processes: nat, p: nat, mask: nat, s: nat)
    requires Matrix(cost, processes) && p <= processes
    ensures Solve(cost, processes, p, mask) <= Solve(cost, processes, p, With(mask, s))
  {
    var plan := Follow(cost, processes, p, With(mask, s));
    FollowAttains(cost, processes, p, With(mask, s));
    forall i | 0 <= i < |plan| && plan[i].Some? ensures !Has(mask, plan[i].value) {
      WithHas(mask, s, plan[i].value);
    }
    SolveIsLowerBound(cost, processes, p, mask, plan);
  }

  lemma {:induction false} ScanChoiceBeatsPenalty(cost: seq<seq<int>>, processes: nat, p: nat, mask: nat, upto: nat)
    requires Matrix(cost, processes) && p < processes && upto <= |cost|
    ensures var b := Scan(cost, processes, p, mask, upto);
            b.choice.Some? ==> b.choice.value < |cost| && cost[b.choice.value][p] < UNMATCHED_PROCESS_PENALTY
    decreases upto
  {
    if upto > 0 {
      ScanChoiceBeatsPenalty(cost, processes, p, mask, upto - 1);
      ScanBounds(cost, processes, p, mask, upto - 1, 0);
      SolveMonotone(cost, processes, p + 1, mask, upto - 1);
    }
  }

  /** Every matched pair of a plan costs strictly less than the penalty. */
  predicate BeatsPenalty(cost: seq<seq<int>>, processes: nat, p: nat, plan: Plan)
    requires Matrix(cost, processes) && p + |plan| == processes
  {
    forall i :: 0 <= i < |plan| && plan[i].Some? ==>
      plan[i].value < |cost| && cost[plan[i].value][p + i] < UNMATCHED_PROCESS_PENALTY
  }

  lemma {:induction false} FollowBeatsPenalty(cost: seq<seq<int>>, processes: nat, p: nat, mask: nat)
    requires Matrix(cost, processes) && p <= processes
    ensures BeatsPenalty(cost, processes, p, Follow(cost, processes, p, mask))
    decreases processes - p
  {
    if p < processes {
      var c := Choice(cost, processes, p, mask);
      var rest := Follow(cost, processes, p + 1, MaskAfter(mask, c));
      FollowBeatsPenalty(cost, processes, p + 1, MaskAfter(mask, c));
      ScanChoiceBeatsPenalty(cost, processes, p, mask, |cost|);
      var plan := Follow(cost, processes, p, mask);
      assert plan == [c] + rest;
      forall i | 0 <= i < |plan| && plan[i].Some?
        ensures plan[i].value < |cost| && cost[plan[i].value][p + i] < UNMATCHED_PROCESS_PENALTY
      {
        if i > 0 {
          assert plan[i] == rest[i - 1];
        }
      }
    }
  }

  // ----- The memoised search -----

  /** `processIndex * maskBase + usedMask` */
  function MemoKey(p: nat, mask: nat, base: nat): nat {
    p * base + mask
  }

  lemma {:induction false} MemoBandsDisjoint(p: nat, q: nat, base: nat)
    requires p < q
    ensures p * base + base <= q * base
    decreases q
  {
    if q == p + 1 {
      assert q * base == p * base + base;
    } else {
      MemoBandsDisjoint(p, q - 1, base);
      assert q * base == (q - 1) * base + base;
    }
  }

  lemma MemoKeyInjective(p: nat, mask: nat, q: nat, other: nat, base: nat)
    requires mask < base && other < base
    requires MemoKey(p, mask, base) == MemoKey(q, other, base)
    ensures p == q && mask == other
  {
    if p < q {
      MemoBandsDisjoint(p, q, base);
    } else if q < p {
      MemoBandsDisjoint(q, p, base);
    }
  }

  class AssignmentSearch {
    const cost: seq<seq<int>>
    const processes: nat
    const base: nat
    var memoCost: map<nat, int>
    var memoChoice: map<nat, Option<nat>>

    /** Every memo entry is the recurrence's value for the one (process, mask) pair its key stands for,
      * and its successor along the stored choice is memoised too. */
    ghost predicate Valid()
      reads this
    {
      && Matrix(cost, processes)
      && base == Pow2(|cost|)
      && memoCost.Keys == memoChoice.Keys
      && (forall p: nat, mask: nat {:trigger MemoKey(p, mask, base)} ::
            p < processes && mask < base && MemoKey(p, mask, base) in memoCost ==>
            && memoCost[MemoKey(p, mask, base)] == Solve(cost, processes, p, mask)
            && memoChoice[MemoKey(p, mask, base)] == Choice(cost, processes, p, mask)
            && Known(p + 1, MaskAfter(mask, Choice(cost, processes, p, mask))))
    }

    ghost predicate Known(p: nat, mask: nat)
      reads this
    {
      p < processes ==> MemoKey(p, mask, base) in memoCost
    }

    constructor (cost: seq<seq<int>>, processes: nat)
      requires Matrix(cost, processes)
      ensures Valid() && this.cost == cost && this.processes == processes
      ensures memoCost == map[]
    {
      this.cost := cost;
      this.processes := processes;
      base := Pow2(|cost|);
      memoCost, memoChoice := map[], map[];
    }

    /** The recursive `solve` closure. */
    method SolveAt(p: nat, mask: nat) returns (best: int)
      requires Valid() && mask < base && p <= processes
      modifies this
      ensures Valid()
      ensures best == Solve(cost, processes, p, mask)
      ensures Known(p, mask)
      ensures forall k :: k in old(memoCost) ==> k in memoCost
      decreases processes - p
    {
      if p >= processes {
        return 0;
      }
      var key := MemoKey(p, mask, base);
      if key in memoCost {
        return memoCost[key];
      }
      var unmatched := SolveAt(p + 1, mask);
      best := unmatched + UNMATCHED_PROCESS_PENALTY;
      var choice: Option<nat> := None;
      for s := 0 to |cost|
        invariant Valid()
        invariant Best(best, choice) == Scan(cost, processes, p, mask, s)
        invariant choice.Some? ==> choice.value < s
        invariant Known(p + 1, MaskAfter(mask, choice))
        invariant forall k :: k in old(memoCost) ==> k in memoCost
      {
        if !Has(mask, s) {
          WithBound(mask, s, |cost|);
          var rest := SolveAt(p + 1, With(mask, s));
          var total := cost[s][p] + rest;
          if total < best {
            best, choice := total, Some(s);
          }
        }
      }
      Store(p, mask, best, choice);
    }

    method Store(p: nat, mask: nat, best: int, choice: Option<nat>)
      requires Valid() && p < processes && mask < base
      requires Best(best, choice) == Scan(cost, processes, p, mask, |cost|)
      requires Known(p + 1, MaskAfter(mask, choice))
      modifies this
      ensures Valid() && Known(p, mask)
      ensures forall k :: k in old(memoCost) ==> k in memoCost
    {
      var key := MemoKey(p, mask, base);
      memoCost := memoCost[key := best];
      memoChoice := memoChoice[key := choice];
      forall q: nat, other: nat | q < processes && other < base && MemoKey(q, other, base) == key
        ensures q == p && other == mask
      {
        MemoKeyInjective(q, other, p, mask, base);
      }
    }

    /** The reconstruction loop: look up the choice of each (process, mask) state and follow it. */
    method Replay() returns (assignment: Plan)
      requires Valid() && Known(0, 0)
      ensures assignment == Follow(cost, processes, 0, 0)
    {
      hide Follow, Scan, Solve, Choice, With, Has, Pow2;
      FollowEnds(cost, processes);
      assignment := [];
      var usedMask: nat := 0;
      for p := 0 to processes
        invariant usedMask < base && Known(p, usedMask)
        invariant |assignment| == p
        invariant Follow(cost, processes, 0, 0) == assignment + Follow(cost, processes, p, usedMask)
      {
        var choice := StoredChoice(p, usedMask);
        FollowStep(cost, processes, p, usedMask, assignment);
        assignment := assignment + [choice];
        if choice.Some? { usedMask := With(usedMask, choice.value); }
      }
    }

    /** `memoChoice.get(stateKey(p, usedMask)) ?? null`; the state it leads to was visited too. */
    method StoredChoice(p: nat, usedMask: nat) returns (choice: Option<nat>)
      requires Valid() && p < processes && usedMask < base && Known(p, usedMask)
      ensures choice == Choice(cost, processes, p, usedMask)
      ensures MaskAfter(usedMask, choice) < base && Known(p + 1, MaskAfter(usedMask, choice))
    {
      var key := MemoKey(p, usedMask, base);
      choice := if key in memoChoice then memoChoice[key] else None;
      ScanAttained(cost, processes, p, usedMask, |cost|);
      if choice.Some? { WithBound(usedMask, choice.value, |cost|); }
    }
  }

  lemma FollowEnds(cost: seq<seq<int>>, processes: nat)
    requires Matrix(cost, processes)
    ensures forall mask :: Follow(cost, processes, processes, mask) == []
  {
  }

  lemma FollowStep(cost: seq<seq<int>>, processes: nat, p: nat, mask: nat, before: Plan)
    requires Matrix(cost, processes) && p < processes
    ensures var c := Choice(cost, processes, p, mask);
            before + Follow(cost, processes, p, mask)
            == (before + [c]) + Follow(cost, processes, p + 1, MaskAfter(mask, c))
  {
  }

  lemma FollowMeetsGoal(cost: seq<seq<int>>, processes: nat)
    requires Matrix(cost, processes)
    ensures var plan := Follow(cost, processes, 0, 0);
            && OneToOne(plan, |cost|)
            && BeatsPenalty(cost, processes, 0, plan)
            && forall other: Plan :: |other| == processes && OneToOne(other, |cost|) ==>
                 Total(cost, processes, 0, plan) <= Total(cost, processes, 0, other)
  {
    var plan := Follow(cost, processes, 0, 0);
    FollowAttains(cost, processes, 0, 0);
    FollowBeatsPenalty(cost, processes, 0, 0);
    forall other: Plan | |other| == processes && OneToOne(other, |cost|)
      ensures Total(cost, processes, 0, plan) <= Total(cost, processes, 0, other)
    {
      FollowIsOptimal(cost, processes, other);
    }
  }

  /** `getBestAssignment`. Up to 30 sessions no shift leaves the 32-bit range; the caller passes at most 20.
    * Ties go to the first minimum found, which is what `Follow` records. */
  method GetBestAssignment(cost: seq<seq<int>>, processes: nat) returns (assignment: Plan)
    requires Matrix(cost, processes) && |cost| <= 30
    ensures |assignment| == processes && OneToOne(assignment, |cost|)
    ensures forall other: Plan :: |other| == processes && OneToOne(other, |cost|) ==>
              Total(cost, processes, 0, assignment) <= Total(cost, processes, 0, other)
    ensures BeatsPenalty(cost, processes, 0, assignment)
    ensures assignment == Follow(cost, processes, 0, 0)
  {
    FollowMeetsGoal(cost, processes);
    if |cost| == 0 || processes == 0 {
      NoSessionsFollow(cost, processes, 0, 0);
      assignment := seq(processes, _ => None);
      assert assignment == Follow(cost, processes, 0, 0);
      return;
    }
    var search := new AssignmentSearch(cost, processes);
    var _ := search.SolveAt(0, 0);
    assignment := search.Replay();
  }

  lemma {:induction false} NoSessionsFollow(cost: seq<seq<int>>, processes: nat, p: nat, mask: nat)
    requires Matrix(cost, processes) && (|cost| == 0 || processes == 0) && p <= processes
    ensures Follow(cost, processes, p, mask) == seq(processes - p, _ => None)
    decreases processes - p
  {
    if p < processes {
      NoSessionsFollow(cost, processes, p + 1, mask);
    }
  }
}

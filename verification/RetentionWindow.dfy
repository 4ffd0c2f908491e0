/** Resuming ledger facts when the retention bound has moved on. */
module RetentionWindow {
  import opened Outcomes
  import opened TranscriptLog
  import opened TranscriptInvariants
  import opened TranscriptTheorems
  import opened LedgerFacts
  import opened LogCounts

  // ----- Records that expired between two scans -----

  /** The record was collected under the bound `since` and no longer is under `later`. */
  predicate Expired(since: int, later: int, step: Step) {
    Weight(since, step) > 0 && Weight(later, step) == 0
  }

  predicate NoneExpired(since: int, later: int, steps: seq<Step>) {
    forall i :: 0 <= i < |steps| ==> !Expired(since, later, steps[i])
  }

  lemma {:induction false} SameFeed(r: Lens, since: int, later: int, log: Log, steps: seq<Step>)
    requires since <= later && NoneExpired(since, later, steps)
    ensures Feed(r, since, log, steps) == Feed(r, later, log, steps)
    decreases |steps|
  {
    hide AddBody;
    if |steps| > 0 {
      SameFeed(r, since, later, log, steps[..|steps| - 1]);
      assert !Expired(since, later, steps[|steps| - 1]);
    }
  }

  lemma {:induction false} FewerCounted(since: int, later: int, steps: seq<Step>)
    requires since <= later
    ensures Weights(later, steps) <= Weights(since, steps)
    ensures Weights(later, steps) == Weights(since, steps) <==> NoneExpired(since, later, steps)
    decreases |steps|
  {
    if |steps| > 0 {
      var n := |steps| - 1;
      FewerCounted(since, later, steps[..n]);
      assert NoneExpired(since, later, steps) <==> NoneExpired(since, later, steps[..n]) && !Expired(since, later, steps[n]) by {
        assert forall i :: 0 <= i < n ==> steps[..n][i] == steps[i];
      }
    }
  }

  /** A log restored under a later bound that none of its facts fell behind goes on exactly like the log of a full scan if
    * and only if no record expired in between: expired ones keep their place in the order numbers. */
  lemma ResumedLogIff(r: Lens, since: int, later: int, before: seq<Step>, after: seq<Step>)
    requires since <= later && Feed(r, since, EMPTY, before).Some?
    requires forall f :: f in Feed(r, since, EMPTY, before).value.facts ==> f.At().ms >= later
    requires Feed(r, later, EMPTY, before + after).Some?
    requires Feed(r, later, Restore(Save(Feed(r, since, EMPTY, before).value), later), after).Some?
    ensures var saved := Save(Feed(r, since, EMPTY, before).value);
            Feed(r, later, Restore(saved, later), after) == Feed(r, later, EMPTY, before + after)
            <==> NoneExpired(since, later, before)
  {
    hide Feed, Weights, NoneExpired, AllUnknowns, TurnOf, Inv, Restore;
    var log := Feed(r, since, EMPTY, before).value;
    UsableRestores(r, since, later, before);
    FeedConcat(r, later, EMPTY, before, after);
    if NoneExpired(since, later, before) {
      SameFeed(r, since, later, EMPTY, before);
    } else {
      var fresh_ := Feed(r, later, EMPTY, before).value;
      FeedCounts(r, since, EMPTY, before);
      FeedCounts(r, later, EMPTY, before);
      FewerCounted(since, later, before);
      FeedCounts(r, later, log, after);
      FeedCounts(r, later, fresh_, after);
    }
  }

  lemma UsableRestores(r: Lens, since: int, later: int, before: seq<Step>)
    requires since <= later && Feed(r, since, EMPTY, before).Some?
    requires forall f :: f in Feed(r, since, EMPTY, before).value.facts ==> f.At().ms >= later
    ensures var log := Feed(r, since, EMPTY, before).value;
            Restore(Save(log), later) == log
  {
    hide Feed;
    EmptyKeeps(since);
    FeedKeeps(r, since, EMPTY, before);
    var log := Feed(r, since, EMPTY, before).value;
    InvUnderLater(since, later, log);
    RestoreIsIdentity(later, log);
  }

  lemma InvUnderLater(since: int, later: int, log: Log)
    requires Inv(false, since, log) && forall f :: f in log.facts ==> f.At().ms >= later
    ensures Inv(false, later, log)
  {
  }

  // ----- What the guard keeps: the turn, and the unknown records where it looks at them -----

  lemma {:induction false} SameTurns(since: int, later: int, turn: string, steps: seq<Step>)
    requires since <= later
    requires forall i :: 0 <= i < |steps| && SetsTurn(since, steps[i]) ==> !Expired(since, later, steps[i])
    ensures TurnOf(since, turn, steps) == TurnOf(later, turn, steps)
    decreases |steps|
  {
    if |steps| > 0 {
      var n := |steps| - 1;
      assert SetsTurn(since, steps[n]) ==> !Expired(since, later, steps[n]);
      SameTurns(since, later, turn, steps[..n]);
    }
  }

  predicate NoUnknownExpired(since: int, later: int, steps: seq<Step>) {
    forall i :: 0 <= i < |steps| && Expired(since, later, steps[i]) ==> !steps[i].record.body.UnknownRecord?
  }

  lemma {:induction false} FewerUnknown(since: int, later: int, steps: seq<Step>)
    requires since <= later
    ensures AllUnknowns(later, steps) <= AllUnknowns(since, steps)
    ensures AllUnknowns(later, steps) == AllUnknowns(since, steps) <==> NoUnknownExpired(since, later, steps)
    decreases |steps|
  {
    if |steps| > 0 {
      var n := |steps| - 1;
      FewerUnknown(since, later, steps[..n]);
      assert NoUnknownExpired(since, later, steps)
             <==> NoUnknownExpired(since, later, steps[..n])
                  && (Expired(since, later, steps[n]) ==> !steps[n].record.body.UnknownRecord?) by {
        assert forall i :: 0 <= i < n ==> steps[..n][i] == steps[i];
      }
    }
  }

  /** The rebuild rule of a cursor with facts: none of them expired, and if the day changed there are no unknown records. */
  predicate Usable(saved: Snapshot, later: int, sameDay: bool) {
    && (forall f :: f in saved.facts ==> f.At().ms >= later)
    && (sameDay || saved.unknownRecords == 0)
  }

  /** What the rule is for: a usable cursor leads to the turn of a full scan, always; and to its count of unknown records if
    * and only if none of the unknown ones expired, which the rule makes sure of only when the day changed. */
  lemma UsableKeepsTurnAndUnknowns(r: Lens, since: int, later: int, sameDay: bool, before: seq<Step>, after: seq<Step>)
    requires since <= later && Feed(r, since, EMPTY, before).Some?
    requires Usable(Save(Feed(r, since, EMPTY, before).value), later, sameDay)
    requires Feed(r, later, EMPTY, before + after).Some?
    requires Feed(r, later, Restore(Save(Feed(r, since, EMPTY, before).value), later), after).Some?
    ensures var saved := Save(Feed(r, since, EMPTY, before).value);
            var resumed, full := Feed(r, later, Restore(saved, later), after).value, Feed(r, later, EMPTY, before + after).value;
            && resumed.turnId == full.turnId
            && (resumed.unknownRecords == full.unknownRecords <==> NoUnknownExpired(since, later, before))
            && (!sameDay ==> NoUnknownExpired(since, later, before))
  {
    hide Feed, AllUnknowns, TurnOf, Weights, Inv, Restore, NoUnknownExpired;
    var log := Feed(r, since, EMPTY, before).value;
    UsableRestores(r, since, later, before);
    FeedCounts(r, since, EMPTY, before);
    FeedCounts(r, later, log, after);
    FeedCounts(r, later, EMPTY, before + after);
    TurnOfConcat(later, "", before, after);
    UnknownsConcat(later, before, after);
    FewerUnknown(since, later, before);
    forall i | 0 <= i < |before| && SetsTurn(since, before[i]) ensures !Expired(since, later, before[i]) {
      TurnsLeaveFacts(r, since, EMPTY, before, i);
    }
    SameTurns(since, later, "", before);
  }

  lemma OneStepFed(r: Lens, since: int, log: Log, step: Step)
    ensures Feed(r, since, log, [step]) == Take(r, since, log, step)
  {
    hide Take;
    assert [step][..0] == [];
    assert Feed(r, since, log, []) == Some(log);
  }

  /** The first failure is real: a record without facts that expires a millisecond later shifts the order of the next call. */
  lemma ExpiredRecordShiftsOrder(r: Lens, since: int, time: string, input: Json) returns (log: Log, resumed: Log, full: Log)
    ensures var before := [Taken(Record(Some(Instant(time, since)), KnownRecord))];
            var after := [Taken(Record(Some(Instant(time, since + 1)), ItemRecord(ToolUse("c", "run", input))))];
            && Feed(r, since, EMPTY, before) == Some(log) && Usable(Save(log), since + 1, false)
            && Feed(r, since + 1, Restore(Save(log), since + 1), after) == Some(resumed)
            && Feed(r, since + 1, EMPTY, before + after) == Some(full)
            && resumed.facts != full.facts
  {
    hide Feed;
    var before := Taken(Record(Some(Instant(time, since)), KnownRecord));
    var after := Taken(Record(Some(Instant(time, since + 1)), ItemRecord(ToolUse("c", "run", input))));
    log := EMPTY.(order := 1);
    OneStepFed(r, since, EMPTY, before);
    OneStepFed(r, since + 1, EMPTY, before);
    assert Restore(Save(log), since + 1) == log;
    resumed := AddTool(r.env, log.(order := 2), "c", "run", input, Instant(time, since + 1));
    full := AddTool(r.env, log, "c", "run", input, Instant(time, since + 1));
    OneStepFed(r, since + 1, EMPTY, after);
    OneStepFed(r, since + 1, log, after);
    FeedConcat(r, since + 1, EMPTY, [before], [after]);
    assert resumed.facts[0].tool.startedOrder == 2 && full.facts[0].tool.startedOrder == 1;
  }

  /** So is the second: on the same day an unknown record that expired is still counted. */
  lemma ExpiredUnknownIsCounted(r: Lens, since: int, time: string) returns (log: Log, full: Log)
    ensures var before := [Taken(Record(Some(Instant(time, since)), UnknownRecord))];
            && Feed(r, since, EMPTY, before) == Some(log) && Usable(Save(log), since + 1, true)
            && Feed(r, since + 1, EMPTY, before) == Some(full)
            && Restore(Save(log), since + 1).unknownRecords == 1 && full.unknownRecords == 0
  {
    hide Feed;
    var unknown := Taken(Record(Some(Instant(time, since)), UnknownRecord));
    log, full := EMPTY.(order := 1, unknownRecords := 1), EMPTY;
    OneStepFed(r, since, EMPTY, unknown);
    OneStepFed(r, since + 1, EMPTY, unknown);
  }

  // ----- What a restored log holds -----

  lemma {:induction false} UnexpiredAre(facts: seq<Fact>, since: int, f: Fact)
    ensures f in Unexpired(facts, since) <==> f in facts && f.At().ms >= since
  {
    if |facts| > 0 {
      var n := |facts| - 1;
      UnexpiredAre(facts[..n], since, f);
      assert facts == facts[..n] + [facts[n]];
    }
  }

  /** A number that the log or one of its calls carries. */
  predicate OrderSeen(facts: seq<Fact>, order: nat, k: nat) {
    k == order || exists f :: f in facts && f.ToolFact? && (f.tool.startedOrder == k || f.tool.completedOrder == Some(k))
  }

  lemma {:induction false} MaxOrderIs(facts: seq<Fact>, order: nat, k: nat)
    ensures OrderSeen(facts, order, k) ==> k <= MaxOrder(facts, order)
    ensures OrderSeen(facts, order, MaxOrder(facts, order))
  {
    if |facts| > 0 {
      var n := |facts| - 1;
      MaxOrderIs(facts[..n], order, k);
      assert facts == facts[..n] + [facts[n]];
      assert facts[n] in facts;
    }
  }

  /** A restored log holds the facts that have not expired, the terminal sessions whose owner is among them, and goes on
    * counting from the greatest number in use; the rest is as saved. */
  lemma RestoredHolds(s: Snapshot, since: int)
    ensures var log := Restore(s, since);
            && (forall f :: f in log.facts <==> f in s.facts && f.At().ms >= since)
            && (forall k :: k in log.sessions <==>
                  k in s.sessions && exists f :: f in log.facts && f.ToolFact? && f.tool.callId == s.sessions[k])
            && (forall k :: k in log.sessions ==> log.sessions[k] == s.sessions[k])
            && OrderSeen(log.facts, s.order, log.order) && (forall k: nat :: OrderSeen(log.facts, s.order, k) ==> k <= log.order)
            && log.turnId == s.turnId && log.messages == s.messages && log.unknownRecords == s.unknownRecords
  {
    hide OrderSeen, MaxOrder;
    var log := Restore(s, since);
    forall f ensures f in log.facts <==> f in s.facts && f.At().ms >= since { UnexpiredAre(s.facts, since, f); }
    MaxOrderIs(log.facts, s.order, 0);
    forall k: nat | OrderSeen(log.facts, s.order, k) ensures k <= log.order { MaxOrderIs(log.facts, s.order, k); }
    forall k | k in s.sessions
      ensures k in log.sessions <==> exists f :: f in log.facts && f.ToolFact? && f.tool.callId == s.sessions[k]
    {
      var i := LastTool(log.facts, s.sessions[k]);
      if i >= 0 { assert log.facts[i] in log.facts; }
      if exists f :: f in log.facts && f.ToolFact? && f.tool.callId == s.sessions[k] {
        var f :| f in log.facts && f.ToolFact? && f.tool.callId == s.sessions[k];
        var j :| 0 <= j < |log.facts| && log.facts[j] == f;
        assert i >= 0;
      }
    }
  }
}

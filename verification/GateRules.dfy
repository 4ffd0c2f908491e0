/** What each transaction on the gate's row does, by what it finds there and what the probes say: who
  * takes the gate, who is told running, and what a token can do. */
module GateRules {
  import opened Outcomes
  import opened ReconciliationGate

  /** The row names a process other than `pid` that can be identified. */
  predicate NamesPeer(row: Option<Row>, pid: int) {
    && row.Some? && row.value.Held? && row.value.pid.Some? && row.value.pid.value != pid
    && row.value.start.Some? && row.value.start.value != ""
  }

  predicate HeldIn(row: Option<Row>, phase: Phase) {
    row.Some? && row.value.Held? && row.value.phase == phase
  }

  /** The gate is taken unless this process cannot be identified, the recorded peer lives, or that cannot be told; what was
    * invalidated or failed stays invalidated for the new owner. */
  lemma BeginOutcome(row: Option<Row>, pid: int, token: Token, self: Probe, owner: Probe)
    ensures Begin(row, pid, token, self, owner) ==
              if self.Unavailable? then Err(ProbeFailed)
              else if self.Gone? then Err(NoIdentity)
              else if NamesPeer(row, pid) && owner.Unavailable? then Err(ProbeFailed)
              else if NamesPeer(row, pid) && owner == Started(row.value.start.value) then Err(HeldByPeer)
              else Ok(Held(if HeldIn(row, Invalidated) || HeldIn(row, Failed) then Invalidated else Acquired, token, Some(pid), Some(self.start)))
  {
  }

  /** Everybody is told running for a failed gate, one's own gate, and the gate of a living peer; a dead peer's gate is open
    * if it never invalidated, and otherwise marked failed. */
  lemma CheckOutcome(row: Option<Row>, pid: int, owner: Probe)
    ensures var lives := NamesPeer(row, pid) && owner == Started(row.value.start.value);
            var dead := row.Some? && row.value.Held? && row.value.pid.Some? && row.value.pid.value != pid && !lives;
            Check(row, pid, owner) ==
              if row.None? || row.value.Ready? then Ok(Checked(row, false))
              else if HeldIn(row, Failed) then Ok(Checked(row, true))
              else if NamesPeer(row, pid) && owner.Unavailable? then Err(ProbeFailed)
              else if !dead then Ok(Checked(row, true))
              else if HeldIn(row, Acquired) then Ok(Checked(row, false))
              else Ok(Checked(Some(Held(Failed, row.value.token, row.value.pid, row.value.start)), true))
  {
  }

  /** Only the token in the row acts: it invalidates unless it failed, completes in any phase, and fails, keeping its place. */
  lemma TokenOutcome(row: Option<Row>, token: Token)
    ensures var own := row.Some? && row.value.Held? && row.value.token == token;
            && Invalidate(row, token) == (if own && row.value.phase != Failed then Ok(Held(Invalidated, token, row.value.pid, row.value.start))
                                          else Err(OwnershipChanged))
            && Complete(row, token) == (if own then Some(Ready) else row)
            && Fail(row, token) == (if own then Some(Held(Failed, token, row.value.pid, row.value.start)) else row)
  {
  }
}

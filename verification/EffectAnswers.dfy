/** What the answer of a broker tells its caller about the database and the target. */
module EffectAnswers {
  import opened Contracts
  import opened Effects
  import opened EffectSafety
  import opened EffectRuns

  /** Everything but a success or a recorded lost acknowledgement leaves the database alone. */
  ghost predicate Wrote(w: World, w': World, outcome: Outcome) {
    outcome.Done? || outcome == Failed(AmbiguousCommit) || w'.db == w.db
  }

  /** A success hands back the row as it now is. */
  ghost predicate Answers(w: World, id: string, outcome: Outcome) {
    outcome.Done? ==> id in w.db.intents && w.db.intents[id] == outcome.intent
  }

  ghost function Applications(w: World, row: Intent): nat {
    Count(w.target.log, row.op.key)
  }

  ghost function Compensations(w: World, row: Intent): nat {
    CountKeys(w.target.compensations, row.op.key)
  }

  /** What a sound row says of the target. */
  lemma RowTells(w: World, id: string, row: Intent)
    requires id in w.db.intents && RowHolds(w, id) && row == w.db.intents[id]
    ensures row.state == Committed || row.state == Ambiguous || row.state == Compensated ==> Applications(w, row) == 1
    ensures row.state == Compensated ==> row.op.class_ == ReversibleWrite && Compensations(w, row) == 1
    ensures row.state == Aborted ==> (Applications(w, row) == 0 <==> row.op.key !in w.target.crashed)
    ensures row.op.key in w.target.crashed ==> Applications(w, row) == 1
    ensures row.op.class_ == IrreversibleWrite && PastPreparation(row.state) ==> Authorized(w.db, row)
  {
  }

  lemma RowsCarryTheirIds(w: World, id: string)
    requires Inv(w)
    ensures id in w.db.intents ==> w.db.intents[id].op.id == id
  {
    if id in w.db.intents {
      RowStands(w, id);
    }
  }

  // ---------------------------------------------------------------- proposals and fences

  lemma ProposalTells(w: World, op: Operation, w': World, outcome: Outcome)
    requires Inv(w) && (w', outcome) == Propose(w, op)
    ensures Wrote(w, w', outcome) && outcome != Failed(AmbiguousCommit)
    ensures outcome.Done? ==>
      && outcome.intent.op.key == op.key && SameOperation(outcome.intent.op, op)
      && Answers(w', outcome.intent.op.id, outcome)
  {
    if outcome.Done? {
      ProposeKeepsInv(w, op, w');
      ProposalHasRow(w, op);
      RowStands(w', w'.db.keys[op.key]);
    }
  }

  lemma PreparationTells(w: World, b: Broker, id: string, w': World, outcome: Outcome)
    requires id in w.db.intents ==> RowHolds(w, id)
    requires (w', outcome) == Prepare(w, b, id)
    ensures Wrote(w, w', outcome) && Answers(w', id, outcome) && outcome != Failed(AmbiguousCommit)
    ensures outcome.Done? ==> outcome.intent.state == Prepared && HoldsFence(outcome.intent, Token(id, 1, b.id))
  {
  }

  /** This token holds the fence of the row, and no other does. */
  ghost predicate HeldOnlyUnder(row: Intent, token: Token) {
    forall t :: HoldsFence(row, t) <==> t == token
  }

  /** After a takeover the new token is the only one accepted. */
  lemma TakeoverTells(w: World, b: Broker, id: string, w': World, outcome: Outcome)
    requires id in w.db.intents ==> w.db.intents[id].op.id == id
    requires (w', outcome) == AcquireFence(w, b, id)
    ensures Wrote(w, w', outcome) && Answers(w', id, outcome) && outcome != Failed(AmbiguousCommit)
    ensures outcome.Done? ==>
      HeldOnlyUnder(outcome.intent, Token(id, w.db.intents[id].fence + 1, b.id))
  {
  }

  // ---------------------------------------------------------------- approvals

  lemma ApprovalAnswers(w: World, b: Broker, id: string, token: Token, grant: Option<Grant>, now: nat,
      w': World, outcome: Outcome)
    requires id in w.db.intents ==> w.db.intents[id].op.id == id
    requires (w', outcome) == Approve(w, b, id, token, grant, now)
    ensures Wrote(w, w', outcome) && Answers(w', id, outcome) && outcome != Failed(AmbiguousCommit)
    ensures outcome.Done? ==> PastPreparation(outcome.intent.state)
    ensures outcome.Done? && outcome.intent.op.class_ == IrreversibleWrite ==>
      grant.Some? && outcome.intent.grant == Some(grant.value.claims.grantId)
  {
  }

  /** An approved irreversible intent holds a stored authentic grant under the identifier of the one presented. */
  lemma ApprovalTells(w: World, b: Broker, id: string, token: Token, grant: Option<Grant>, now: nat,
      w': World, outcome: Outcome)
    requires Inv(w) && (w', outcome) == Approve(w, b, id, token, grant, now)
    ensures outcome.Done? && outcome.intent.op.class_ == IrreversibleWrite ==> Authorized(w'.db, outcome.intent)
  {
    if outcome.Done? {
      ApproveKeepsInv(w, b, id, token, grant, now, w');
      RowsCarryTheirIds(w, id);
      ApprovalAnswers(w, b, id, token, grant, now, w', outcome);
      RowStands(w', id);
      RowTells(w', id, outcome.intent);
    }
  }

  // ---------------------------------------------------------------- commits

  lemma CommitAnswers(w: World, b: Broker, id: string, token: Token, now: nat,
      w': World, outcome: Outcome)
    requires id in w.db.intents ==> w.db.intents[id].op.id == id
    requires (w', outcome) == Commit(w, b, id, token, now)
    ensures Wrote(w, w', outcome) && Answers(w', id, outcome)
    ensures outcome.Done? ==> outcome.intent.state == Committed || outcome.intent.state == Compensated
    ensures outcome == Failed(AmbiguousCommit) ==> id in w'.db.intents && w'.db.intents[id].state == Ambiguous
    ensures outcome.Died? ==> id in w'.db.intents && w'.db.intents[id].op.key in w'.target.crashed
  {
  }

  /** A success, a lost acknowledgement and a death each mean exactly one application of the key. */
  lemma CommitTells(w: World, b: Broker, id: string, token: Token, now: nat,
      w': World, outcome: Outcome)
    requires Inv(w) && (w', outcome) == Commit(w, b, id, token, now)
    ensures (outcome.Done? || outcome == Failed(AmbiguousCommit) || outcome.Died?) ==>
      (id in w'.db.intents && Applications(w', w'.db.intents[id]) == 1)
  {
    if id in w.db.intents {
      CommitKeepsInv(w, b, id, token, now, w');
      RowsCarryTheirIds(w, id);
      CommitAnswers(w, b, id, token, now, w', outcome);
      if id in w'.db.intents {
        RowStands(w', id);
        RowTells(w', id, w'.db.intents[id]);
      }
    }
  }

  // ---------------------------------------------------------------- compensations and aborts

  lemma CompensationAnswers(w: World, id: string, token: Token, w': World, outcome: Outcome)
    requires id in w.db.intents ==> w.db.intents[id].op.id == id
    requires (w', outcome) == Compensate(w, id, token)
    ensures Wrote(w, w', outcome) && Answers(w', id, outcome) && outcome != Failed(AmbiguousCommit)
    ensures outcome.Done? ==> outcome.intent.state == Compensated
  {
  }

  lemma CompensationTells(w: World, id: string, token: Token, w': World, outcome: Outcome)
    requires Inv(w) && (w', outcome) == Compensate(w, id, token)
    ensures outcome.Done? ==>
      && outcome.intent.op.class_ == ReversibleWrite
      && Applications(w', outcome.intent) == 1 && Compensations(w', outcome.intent) == 1
  {
    if outcome.Done? {
      CompensateKeepsInv(w, id, token, w');
      RowsCarryTheirIds(w, id);
      CompensationAnswers(w, id, token, w', outcome);
      RowStands(w', id);
      RowTells(w', id, outcome.intent);
    }
  }

  lemma AbortAnswers(w: World, id: string, token: Option<Token>, w': World, outcome: Outcome)
    requires id in w.db.intents ==> w.db.intents[id].op.id == id
    requires (w', outcome) == Abort(w, id, token)
    ensures Wrote(w, w', outcome) && Answers(w', id, outcome) && outcome != Failed(AmbiguousCommit)
    ensures outcome.Done? ==> outcome.intent.state == Aborted
  {
  }

  /** An aborted effect was applied only if the process died right after its application. */
  lemma AbortTells(w: World, id: string, token: Option<Token>, w': World, outcome: Outcome)
    requires Inv(w) && (w', outcome) == Abort(w, id, token)
    ensures outcome.Done? ==> (Applications(w', outcome.intent) == 0 <==> outcome.intent.op.key !in w'.target.crashed)
  {
    if outcome.Done? {
      AbortKeepsInv(w, id, token, w');
      RowsCarryTheirIds(w, id);
      AbortAnswers(w, id, token, w', outcome);
      RowStands(w', id);
      RowTells(w', id, outcome.intent);
    }
  }

  // ---------------------------------------------------------------- one call served

  /** A call took the world from `w` to `w'`: the invariant holds again and the answer is true of the tables. */
  ghost predicate Served(w: World, w': World, id: string, outcome: Outcome) {
    Inv(w') && Wrote(w, w', outcome) && Answers(w', id, outcome)
  }

  lemma PreparationServed(w: World, b: Broker, id: string, w': World, outcome: Outcome)
    requires Inv(w) && (w', outcome) == Prepare(w, b, id)
    ensures Served(w, w', id, outcome) && outcome != Failed(AmbiguousCommit)
    ensures outcome.Done? ==> outcome.intent.state == Prepared && HoldsFence(outcome.intent, Token(id, 1, b.id))
  {
    PrepareKeepsInv(w, b, id, w');
    if id in w.db.intents { RowStands(w, id); }
    PreparationTells(w, b, id, w', outcome);
  }

  lemma TakeoverServed(w: World, b: Broker, id: string, w': World, outcome: Outcome)
    requires Inv(w) && (w', outcome) == AcquireFence(w, b, id)
    ensures Served(w, w', id, outcome) && outcome != Failed(AmbiguousCommit)
    ensures outcome.Done? ==>
      && id in w.db.intents
      && HeldOnlyUnder(outcome.intent, Token(id, w.db.intents[id].fence + 1, b.id))
  {
    FenceKeepsInv(w, b, id, w');
    RowsCarryTheirIds(w, id);
    TakeoverTells(w, b, id, w', outcome);
  }

  lemma CompensationServed(w: World, id: string, token: Token, w': World, outcome: Outcome)
    requires Inv(w) && (w', outcome) == Compensate(w, id, token)
    ensures Served(w, w', id, outcome) && outcome != Failed(AmbiguousCommit)
    ensures outcome.Done? ==>
      && outcome.intent.state == Compensated && outcome.intent.op.class_ == ReversibleWrite
      && Applications(w', outcome.intent) == 1 && Compensations(w', outcome.intent) == 1
  {
    CompensateKeepsInv(w, id, token, w');
    CompensationTells(w, id, token, w', outcome);
    RowsCarryTheirIds(w, id);
    CompensationAnswers(w, id, token, w', outcome);
  }

  lemma AbortServed(w: World, id: string, token: Option<Token>, w': World, outcome: Outcome)
    requires Inv(w) && (w', outcome) == Abort(w, id, token)
    ensures Served(w, w', id, outcome) && outcome != Failed(AmbiguousCommit)
    ensures outcome.Done? ==>
      && outcome.intent.state == Aborted
      && (Applications(w', outcome.intent) == 0 <==> outcome.intent.op.key !in w'.target.crashed)
  {
    AbortKeepsInv(w, id, token, w');
    AbortTells(w, id, token, w', outcome);
    RowsCarryTheirIds(w, id);
    AbortAnswers(w, id, token, w', outcome);
  }

  lemma ProposalServed(w: World, op: Operation, w': World, outcome: Outcome)
    requires Inv(w) && (w', outcome) == Propose(w, op)
    ensures Inv(w') && Wrote(w, w', outcome) && outcome != Failed(AmbiguousCommit)
    ensures outcome.Done? ==>
      && outcome.intent.op.key == op.key && SameOperation(outcome.intent.op, op)
      && Answers(w', outcome.intent.op.id, outcome)
  {
    ProposeKeepsInv(w, op, w');
    ProposalTells(w, op, w', outcome);
  }

  lemma ApprovalServed(w: World, b: Broker, id: string, token: Token, grant: Option<Grant>, now: nat,
      w': World, outcome: Outcome)
    requires Inv(w) && (w', outcome) == Approve(w, b, id, token, grant, now)
    ensures Served(w, w', id, outcome) && outcome != Failed(AmbiguousCommit)
    ensures outcome.Done? ==> PastPreparation(outcome.intent.state)
    ensures outcome.Done? && outcome.intent.op.class_ == IrreversibleWrite ==> Authorized(w'.db, outcome.intent)
  {
    ApproveKeepsInv(w, b, id, token, grant, now, w');
    ApprovalTells(w, b, id, token, grant, now, w', outcome);
    RowsCarryTheirIds(w, id);
    ApprovalAnswers(w, b, id, token, grant, now, w', outcome);
  }

  lemma CommitServed(w: World, b: Broker, id: string, token: Token, now: nat,
      w': World, outcome: Outcome)
    requires Inv(w) && (w', outcome) == Commit(w, b, id, token, now)
    ensures Served(w, w', id, outcome)
    ensures outcome.Done? ==> outcome.intent.state == Committed || outcome.intent.state == Compensated
    ensures outcome == Failed(AmbiguousCommit) ==> id in w'.db.intents && w'.db.intents[id].state == Ambiguous
    ensures outcome.Done? || outcome == Failed(AmbiguousCommit) || outcome.Died? ==>
      (id in w'.db.intents && Applications(w', w'.db.intents[id]) == 1)
  {
    CommitKeepsInv(w, b, id, token, now, w');
    CommitTells(w, b, id, token, now, w', outcome);
    RowsCarryTheirIds(w, id);
    CommitAnswers(w, b, id, token, now, w', outcome);
  }
}

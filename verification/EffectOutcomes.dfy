/** Exactly when each call of a broker succeeds, what it then leaves behind, and why it fails otherwise. */
module EffectOutcomes {
  import opened Contracts
  import opened Effects
  import opened EffectSafety
  import opened EffectRuns

  /** One row is replaced, one event tells of it, and the rest of the database stays as it was. */
  ghost predicate Replaces(db: Database, db': Database, next: Intent, kind: EventKind) {
    && db'.intents == db.intents[next.op.id := next]
    && db'.outbox == db.outbox + [OutboxEvent(next.op.id, kind, next.state, next.fence)]
    && db'.keys == db.keys && db'.grants == db.grants && db'.published == db.published
  }

  ghost predicate UnderFence(db: Database, id: string, token: Token) {
    && id in db.intents
    && token == Token(id, db.intents[id].fence, token.owner) && db.intents[id].owner == Some(token.owner)
  }

  lemma FenceIsHeld(db: Database, id: string, token: Token)
    requires id in db.intents && db.intents[id].op.id == id
    ensures HoldsFence(db.intents[id], token) <==> UnderFence(db, id, token)
  {
  }

  ghost predicate StateIs(db: Database, id: string, s: EffectState) {
    id in db.intents && db.intents[id].state == s
  }

  // ---------------------------------------------------------------- proposals

  /** What a request must name. */
  predicate WellFormed(op: Operation) {
    && op.runId != "" && op.action != "" && op.resource != "" && op.key != ""
    && op.class_ != Pure && op.class_ != Read
    && (op.class_ == ReversibleWrite ==> op.compensation.Some? && op.compensation.value != "")
  }

  /** The same request, perhaps from another run. */
  predicate Repeats(a: Operation, b: Operation) {
    a == b.(id := a.id, runId := a.runId, key := a.key)
  }

  /** A well-formed request gets the row of its key, if that is for the same request, or a new row. */
  lemma ProposeExactly(w: World, op: Operation, w': World, outcome: Outcome)
    requires Inv(w) && (w', outcome) == Propose(w, op)
    ensures outcome.Done? <==>
      && WellFormed(op)
      && if op.key in w.db.keys then Repeats(w.db.intents[w.db.keys[op.key]].op, op) else op.id !in w.db.intents
    ensures outcome.Done? && op.key in w.db.keys ==> w' == w && outcome.intent == w.db.intents[w.db.keys[op.key]]
    ensures outcome.Done? && op.key !in w.db.keys ==>
      && outcome.intent == Intent(op, Proposed, 0, None, None) && w'.target == w.target
      && w'.db.keys == w.db.keys[op.key := op.id]
      && Replaces(w.db, w'.db.(keys := w.db.keys), outcome.intent, ProposedEvent)
    ensures !outcome.Done? ==> w' == w && outcome == Failed(
      if !WellFormed(op) then InvalidRequest
      else if op.key in w.db.keys then IdempotencyConflict else IntegrityError)
  {
    KeysHaveRows(w, op.key);
    ProposeCases(w, op, w', outcome);
  }

  lemma KeysHaveRows(w: World, key: string)
    requires Inv(w)
    ensures key in w.db.keys ==> w.db.keys[key] in w.db.intents && w.db.intents[w.db.keys[key]].op.key == key
  {
  }

  lemma ProposeCases(w: World, op: Operation, w': World, outcome: Outcome)
    requires (w', outcome) == Propose(w, op)
    requires op.key in w.db.keys ==> w.db.keys[op.key] in w.db.intents
    requires op.key in w.db.keys ==> w.db.intents[w.db.keys[op.key]].op.key == op.key
    ensures !WellFormed(op) ==> w' == w && outcome == Failed(InvalidRequest)
    ensures WellFormed(op) && op.key in w.db.keys ==>
      && w' == w
      && outcome == if Repeats(w.db.intents[w.db.keys[op.key]].op, op) then Done(w.db.intents[w.db.keys[op.key]])
                    else Failed(IdempotencyConflict)
    ensures WellFormed(op) && op.key !in w.db.keys && op.id in w.db.intents ==>
      w' == w && outcome == Failed(IntegrityError)
    ensures WellFormed(op) && op.key !in w.db.keys && op.id !in w.db.intents ==>
      && outcome == Done(Intent(op, Proposed, 0, None, None)) && w'.target == w.target
      && w'.db.keys == w.db.keys[op.key := op.id]
      && Replaces(w.db, w'.db.(keys := w.db.keys), outcome.intent, ProposedEvent)
  {
  }

  // ---------------------------------------------------------------- fences

  lemma PrepareExactly(w: World, b: Broker, id: string, w': World, outcome: Outcome)
    requires id in w.db.intents ==> w.db.intents[id].op.id == id
    requires (w', outcome) == Prepare(w, b, id)
    ensures outcome.Done? <==> StateIs(w.db, id, Proposed)
    ensures outcome.Done? ==>
      && outcome.intent == w.db.intents[id].(
           state := Prepared, fence := w.db.intents[id].fence + 1, owner := Some(b.id))
      && Replaces(w.db, w'.db, outcome.intent, PreparedEvent) && w'.target == w.target
    ensures !outcome.Done? ==>
      w' == w && outcome == Failed(if id in w.db.intents then InvalidTransition else IntentNotFound)
  {
  }

  lemma FenceExactly(w: World, b: Broker, id: string, w': World, outcome: Outcome)
    requires id in w.db.intents ==> w.db.intents[id].op.id == id
    requires (w', outcome) == AcquireFence(w, b, id)
    ensures outcome.Done? <==>
      StateIs(w.db, id, Prepared) || StateIs(w.db, id, Approved) || StateIs(w.db, id, Ambiguous)
    ensures outcome.Done? ==>
      && outcome.intent == w.db.intents[id].(fence := w.db.intents[id].fence + 1, owner := Some(b.id))
      && Replaces(w.db, w'.db, outcome.intent, FenceEvent) && w'.target == w.target
    ensures !outcome.Done? ==>
      w' == w && outcome == Failed(if id in w.db.intents then InvalidTransition else IntentNotFound)
  {
  }

  // ---------------------------------------------------------------- approvals

  /** A trusted authority issued the grant for the operation, it is valid now, and neither was used before. */
  ghost predicate Usable(w: World, b: Broker, op: Operation, g: Grant, now: nat) {
    && IssuedFor(b, op, g) && g.claims.notBefore <= now < g.claims.expires
    && g.claims.grantId !in w.db.grants
    && forall h :: h in w.db.grants ==> w.db.grants[h].claims.intentId != op.id
  }

  /** A prepared row may be approved under this token, with this grant if it is irreversible and with none otherwise. */
  ghost predicate MayApprove(w: World, b: Broker, id: string, token: Token, grant: Option<Grant>, now: nat) {
    && StateIs(w.db, id, Prepared) && UnderFence(w.db, id, token)
    && if w.db.intents[id].op.class_ == IrreversibleWrite
       then grant.Some? && Usable(w, b, w.db.intents[id].op, grant.value, now)
       else grant.None?
  }

  /** The row was approved before, with this very grant if it is irreversible. */
  ghost predicate WasApproved(w: World, id: string, grant: Option<Grant>) {
    && id in w.db.intents && PastPreparation(w.db.intents[id].state)
    && (w.db.intents[id].op.class_ == IrreversibleWrite ==>
          grant.Some? && w.db.intents[id].grant == Some(grant.value.claims.grantId))
  }

  lemma FreeIsUnused(w: World, b: Broker, op: Operation, g: Grant, now: nat)
    ensures GrantVerifies(b, op, g, true, now) && GrantIsFree(w.db, g) <==> Usable(w, b, op, g, now)
  {
    VerifiedIffIssued(b, op, g, true, now);
    if IssuedFor(b, op, g) {
      assert g.claims.intentId == op.id;
    }
  }

  lemma ApproveExactly(w: World, b: Broker, id: string, token: Token, grant: Option<Grant>, now: nat,
      w': World, outcome: Outcome)
    requires id in w.db.intents ==> w.db.intents[id].op.id == id
    requires (w', outcome) == Approve(w, b, id, token, grant, now)
    ensures outcome.Done? <==> WasApproved(w, id, grant) || MayApprove(w, b, id, token, grant, now)
    ensures WasApproved(w, id, grant) ==> w' == w && outcome == Done(w.db.intents[id])
    ensures !outcome.Done? ==> w' == w && outcome == Failed(
      if id !in w.db.intents then IntentNotFound
      else if StateIs(w.db, id, Proposed) || StateIs(w.db, id, Aborted) then InvalidTransition
      else if StateIs(w.db, id, Prepared) && !UnderFence(w.db, id, token) then StaleFence
      else if StateIs(w.db, id, Prepared) && w.db.intents[id].op.class_ == IrreversibleWrite && grant.None?
      then ApprovalRequired else InvalidApproval)
  {
    if id in w.db.intents {
      FenceIsHeld(w.db, id, token);
      if grant.Some? {
        FreeIsUnused(w, b, w.db.intents[id].op, grant.value, now);
      }
    }
  }

  /** The approval stores the grant and names it in the row. */
  lemma ApprovalWrites(w: World, b: Broker, id: string, token: Token, grant: Option<Grant>, now: nat,
      w': World, outcome: Outcome)
    requires id in w.db.intents && w.db.intents[id].op.id == id
    requires (w', outcome) == Approve(w, b, id, token, grant, now) && MayApprove(w, b, id, token, grant, now)
    ensures outcome.Done? && w'.target == w.target
    ensures w.db.intents[id].op.class_ == IrreversibleWrite ==>
      && outcome.intent == w.db.intents[id].(state := Approved, grant := Some(grant.value.claims.grantId))
      && w'.db.grants == w.db.grants[grant.value.claims.grantId := grant.value]
    ensures w.db.intents[id].op.class_ != IrreversibleWrite ==>
      outcome.intent == w.db.intents[id].(state := Approved) && w'.db.grants == w.db.grants
    ensures Replaces(w.db, w'.db.(grants := w.db.grants), outcome.intent, ApprovedEvent)
  {
    FenceIsHeld(w.db, id, token);
    if grant.Some? {
      FreeIsUnused(w, b, w.db.intents[id].op, grant.value, now);
    }
  }

  // ---------------------------------------------------------------- commits

  /** An irreversible row needs a stored grant that a trusted authority issued for it, and if `timely` one valid now. */
  ghost predicate Permitted(w: World, b: Broker, row: Intent, timely: bool, now: nat) {
    row.op.class_ == IrreversibleWrite ==>
      && row.grant.Some? && row.grant.value in w.db.grants
      && var g := w.db.grants[row.grant.value];
         IssuedFor(b, row.op, g) && (timely ==> g.claims.notBefore <= now < g.claims.expires)
  }

  lemma PermitVerifies(w: World, b: Broker, row: Intent, timely: bool, now: nat)
    requires Granted(w, row) && (row.op.class_ == IrreversibleWrite ==> row.grant.Some?)
    ensures row.op.class_ == IrreversibleWrite ==> row.grant.value in w.db.grants
    ensures Permitted(w, b, row, timely, now) <==>
      (row.op.class_ == IrreversibleWrite ==> GrantVerifies(b, row.op, w.db.grants[row.grant.value], timely, now))
  {
    if row.op.class_ == IrreversibleWrite {
      VerifiedIffIssued(b, row.op, w.db.grants[row.grant.value], timely, now);
    }
  }

  /** The target after the first application of the key by this token. */
  ghost predicate AppliesOnce(t: Target, t': Target, op: Operation, version: nat, now: nat) {
    && t'.applications == t.applications[op.key := Application(op.id, op, version)]
    && t'.log == t.log + [Applied(op.key, op.id, now)] && t'.highest == t.highest[op.id := version]
    && t'.compensated == t.compensated && t'.compensations == t.compensations
  }

  /** What the commit of an approved row under its fence comes to. */
  ghost predicate CommitsApproved(w: World, row: Intent, now: nat, w': World, outcome: Outcome) {
    var op, t, t' := row.op, w.target, w'.target;
    if op.key in t.applications then
      && outcome == Done(row.(state := Committed)) && Replaces(w.db, w'.db, row.(state := Committed), CommittedEvent)
      && t' == t.(highest := t.highest[op.id := row.fence])
    else if op.key in t.hard then
      && outcome == Died && w'.db == w.db && AppliesOnce(t, t', op, row.fence, now)
      && t'.crashed == t.crashed + {op.key} && t'.hard == t.hard - {op.key} && t'.soft == t.soft
    else if op.key in t.soft then
      && outcome == Failed(AmbiguousCommit) && AppliesOnce(t, t', op, row.fence, now)
      && Replaces(w.db, w'.db, row.(state := Ambiguous), AmbiguousEvent)
      && t'.crashed == t.crashed && t'.hard == t.hard && t'.soft == t.soft - {op.key}
    else
      && outcome == Done(row.(state := Committed)) && AppliesOnce(t, t', op, row.fence, now)
      && Replaces(w.db, w'.db, row.(state := Committed), CommittedEvent)
      && t'.crashed == t.crashed && t'.hard == t.hard && t'.soft == t.soft
  }

  lemma AttemptCommits(w: World, row: Intent, token: Token, now: nat, w': World, outcome: Outcome)
    requires row.op.id in w.db.intents && row == w.db.intents[row.op.id] && row.state == Approved
    requires Reflects(w.target, row) && token.version == row.fence
    requires (w', outcome) == Attempted(w, row, token, now)
    ensures CommitsApproved(w, row, now, w', outcome)
  {
  }

  /**
   * An approved row is committed by the holder of its fence exactly when it is permitted now: with one application
   * of a fresh key, unless a fault is armed for it, and with none when a dead process had applied it already.
   */
  lemma CommitApprovedExactly(w: World, b: Broker, id: string, token: Token, now: nat, w': World, outcome: Outcome)
    requires Inv(w) && (w', outcome) == Commit(w, b, id, token, now)
    requires StateIs(w.db, id, Approved) && UnderFence(w.db, id, token)
    ensures var row := w.db.intents[id];
      if Permitted(w, b, row, true, now) then CommitsApproved(w, row, now, w', outcome)
      else w' == w && outcome == Failed(InvalidApproval)
  {
    var row := w.db.intents[id];
    RowFacts(w, id);
    FenceIsHeld(w.db, id, token);
    PermitVerifies(w, b, row, true, now);
    if Permitted(w, b, row, true, now) {
      ApprovedAttempts(w, b, row, token, now);
      AttemptCommits(w, row, token, now, w', outcome);
    } else {
      ApprovedIsRefused(w, b, row, token, now);
    }
  }

  lemma ApprovedIsRefused(w: World, b: Broker, row: Intent, token: Token, now: nat)
    requires row.op.id in w.db.intents && row == w.db.intents[row.op.id] && row.state == Approved
    requires HoldsFence(row, token) && row.op.class_ == IrreversibleWrite
    requires row.grant.Some? && row.grant.value in w.db.grants
    requires !GrantVerifies(b, row.op, w.db.grants[row.grant.value], true, now)
    ensures Commit(w, b, row.op.id, token, now) == (w, Failed(InvalidApproval))
  {
  }

  lemma ApprovedAttempts(w: World, b: Broker, row: Intent, token: Token, now: nat)
    requires row.op.id in w.db.intents && row == w.db.intents[row.op.id] && row.state == Approved
    requires HoldsFence(row, token)
    requires row.op.class_ == IrreversibleWrite ==> row.grant.Some? && row.grant.value in w.db.grants
    requires row.op.class_ == IrreversibleWrite ==>
      GrantVerifies(b, row.op, w.db.grants[row.grant.value], true, now)
    ensures Commit(w, b, row.op.id, token, now) == Attempted(w, row, token, now)
  {
  }

  /** An ambiguous row is committed under its fence, without the target, exactly when its grant is authentic. */
  lemma CommitAmbiguousExactly(w: World, b: Broker, id: string, token: Token, now: nat, w': World, outcome: Outcome)
    requires Inv(w) && (w', outcome) == Commit(w, b, id, token, now)
    requires StateIs(w.db, id, Ambiguous) && UnderFence(w.db, id, token)
    ensures var row := w.db.intents[id];
      if Permitted(w, b, row, false, now) then
        && outcome == Done(row.(state := Committed)) && w'.target == w.target
        && Replaces(w.db, w'.db, row.(state := Committed), CommittedEvent)
      else w' == w && outcome == Failed(InvalidApproval)
  {
    RowFacts(w, id);
    FenceIsHeld(w.db, id, token);
    PermitVerifies(w, b, w.db.intents[id], false, now);
    AmbiguousCommits(w, b, w.db.intents[id], token, now, w', outcome);
  }

  lemma AmbiguousCommits(w: World, b: Broker, row: Intent, token: Token, now: nat, w': World, outcome: Outcome)
    requires row.op.id in w.db.intents && row == w.db.intents[row.op.id] && row.state == Ambiguous
    requires Reflects(w.target, row) && HoldsFence(row, token)
    requires row.op.class_ == IrreversibleWrite ==> row.grant.Some? && row.grant.value in w.db.grants
    requires (w', outcome) == Commit(w, b, row.op.id, token, now)
    ensures if row.op.class_ == IrreversibleWrite ==>
                 GrantVerifies(b, row.op, w.db.grants[row.grant.value], false, now) then
        && outcome == Done(row.(state := Committed)) && w'.target == w.target
        && Replaces(w.db, w'.db, row.(state := Committed), CommittedEvent)
      else w' == w && outcome == Failed(InvalidApproval)
  {
  }

  /** Every other commit changes nothing: it answers from a finished row or is refused. */
  lemma CommitElsewhereIsIdle(w: World, b: Broker, id: string, token: Token, now: nat, w': World, outcome: Outcome)
    requires id in w.db.intents ==> w.db.intents[id].op.id == id
    requires (w', outcome) == Commit(w, b, id, token, now)
    requires !((StateIs(w.db, id, Approved) || StateIs(w.db, id, Ambiguous)) && UnderFence(w.db, id, token))
    ensures w' == w
    ensures outcome ==
      if StateIs(w.db, id, Committed) || StateIs(w.db, id, Compensated) then Done(w.db.intents[id])
      else Failed(if id !in w.db.intents then IntentNotFound
                  else if StateIs(w.db, id, Approved) || StateIs(w.db, id, Ambiguous) then StaleFence
                  else InvalidTransition)
  {
    if id in w.db.intents {
      FenceIsHeld(w.db, id, token);
    }
  }

  /** The stored application of the key is for this very effect. */
  predicate AppliedFor(t: Target, op: Operation)
    requires op.key in t.applications
  {
    t.applications[op.key].intentId == op.id && t.applications[op.key].digest == op
  }

  /** What the target itself answers to any token: older ones are fenced, and a key is applied once, for one effect. */
  lemma ExecuteExactly(t: Target, op: Operation, version: nat, now: nat, t': Target, execution: Execution)
    requires (t', execution) == Execute(t, op, version, now)
    ensures execution == Fenced <==> op.id in t.highest && version < t.highest[op.id]
    ensures execution == Fenced ==> t' == t
    ensures execution == Replayed ==> op.key in t.applications && AppliedFor(t, op)
    ensures execution == Conflict ==> op.key in t.applications && !AppliedFor(t, op)
    ensures execution == Replayed || execution == Conflict ==> t' == t.(highest := t.highest[op.id := version])
    ensures execution == HardCrash ==> op.key !in t.applications && op.key in t.hard
    ensures execution == SoftFault ==> op.key !in t.applications && op.key !in t.hard && op.key in t.soft
    ensures execution == AppliedNow ==> op.key !in t.applications && op.key !in t.hard && op.key !in t.soft
    ensures execution == HardCrash || execution == SoftFault || execution == AppliedNow ==>
      AppliesOnce(t, t', op, version, now)
  {
  }

  // ---------------------------------------------------------------- compensations and aborts

  /** Every stored reversible intent names its compensation. */
  lemma {:induction false} CompensationsAreNamed(steps: seq<Step>, id: string)
    requires id in After(steps).db.intents && After(steps).db.intents[id].op.class_ == ReversibleWrite
    ensures NamesCompensation(After(steps).db.intents[id].op)
  {
    var front, last := steps[..|steps| - 1], steps[|steps| - 1];
    InvAlways(front);
    if id in After(front).db.intents {
      StepGrows(After(front), last);
      CompensationsAreNamed(front, id);
    } else {
      NewIsWellFormed(After(front), last, id, After(steps));
    }
  }

  lemma NewIsWellFormed(w: World, step: Step, id: string, w': World)
    requires Inv(w) && w' == Taken(w, step).0 && id !in w.db.intents && id in w'.db.intents
    ensures w'.db.intents[id].op.class_ == ReversibleWrite ==> NamesCompensation(w'.db.intents[id].op)
  {
    if step.ProposeStep? {
      ProposalIsNew(w, step.op, id, w');
    } else if About(step).Some? {
      var about := About(step).value;
      if about in w.db.intents {
        RowStands(w, about);
        StepAges(w, step, about);
      } else {
        UnknownIntent(w, step, about);
      }
    }
  }

  lemma ProposalIsNew(w: World, op: Operation, id: string, w': World)
    requires w' == Propose(w, op).0 && id !in w.db.intents && id in w'.db.intents
    ensures w'.db.intents[id].op == op && (op.class_ == ReversibleWrite ==> NamesCompensation(op))
  {
  }

  /** The effect stands and may be undone under this token. */
  ghost predicate MayCompensate(w: World, id: string, token: Token) {
    && (StateIs(w.db, id, Committed) || StateIs(w.db, id, Ambiguous)) && UnderFence(w.db, id, token)
    && w.db.intents[id].op.class_ == ReversibleWrite
  }

  /** Compensation succeeds on a compensated row, and on a standing reversible effect under its fence. */
  lemma CompensateExactly(w: World, id: string, token: Token, w': World, outcome: Outcome)
    requires Inv(w) && (w', outcome) == Compensate(w, id, token)
    requires id in w.db.intents && w.db.intents[id].op.class_ == ReversibleWrite ==>
      NamesCompensation(w.db.intents[id].op)
    ensures outcome.Done? <==> StateIs(w.db, id, Compensated) || MayCompensate(w, id, token)
    ensures StateIs(w.db, id, Compensated) ==> w' == w && outcome == Done(w.db.intents[id])
    ensures MayCompensate(w, id, token) ==> Compensates(w, w.db.intents[id], w', outcome)
    ensures !outcome.Done? ==> w' == w && outcome == Failed(
      if id !in w.db.intents then IntentNotFound
      else if (StateIs(w.db, id, Committed) || StateIs(w.db, id, Ambiguous)) && !UnderFence(w.db, id, token)
      then StaleFence else InvalidTransition)
  {
    if id in w.db.intents {
      RowFacts(w, id);
      KnownCompensates(w, id, token, w', outcome);
    }
  }

  lemma KnownCompensates(w: World, id: string, token: Token, w': World, outcome: Outcome)
    requires id in w.db.intents && w.db.intents[id].op.id == id && Reflects(w.target, w.db.intents[id])
    requires (w', outcome) == Compensate(w, id, token)
    requires w.db.intents[id].op.class_ == ReversibleWrite ==> NamesCompensation(w.db.intents[id].op)
    ensures MayCompensate(w, id, token) ==> Compensates(w, w.db.intents[id], w', outcome)
    ensures !MayCompensate(w, id, token) ==>
      && w' == w
      && outcome == if StateIs(w.db, id, Compensated) then Done(w.db.intents[id])
                    else if (StateIs(w.db, id, Committed) || StateIs(w.db, id, Ambiguous))
                            && !UnderFence(w.db, id, token)
                    then Failed(StaleFence) else Failed(InvalidTransition)
  {
    FenceIsHeld(w.db, id, token);
    if MayCompensate(w, id, token) {
      RowCompensates(w, w.db.intents[id], token, w', outcome);
    } else {
      RowStays(w, w.db.intents[id], token, w', outcome);
    }
  }

  lemma RowFacts(w: World, id: string)
    requires Inv(w) && id in w.db.intents
    ensures w.db.intents[id].op.id == id && Reflects(w.target, w.db.intents[id]) && Granted(w, w.db.intents[id])
  {
    RowStands(w, id);
  }

  /** The row is compensated, and the target has undone the key once more than before. */
  ghost predicate Compensates(w: World, row: Intent, w': World, outcome: Outcome) {
    && outcome == Done(row.(state := Compensated))
    && Replaces(w.db, w'.db, row.(state := Compensated), CompensatedEvent)
    && w'.target == w.target.(
         compensated := w.target.compensated + {row.op.key}, compensations := w.target.compensations + [row.op.key],
         highest := w.target.highest[row.op.id := row.fence])
  }

  lemma RowCompensates(w: World, row: Intent, token: Token, w': World, outcome: Outcome)
    requires row.op.id in w.db.intents && row == w.db.intents[row.op.id] && Reflects(w.target, row)
    requires (w', outcome) == Compensate(w, row.op.id, token)
    requires (row.state == Committed || row.state == Ambiguous) && HoldsFence(row, token)
    requires row.op.class_ == ReversibleWrite && NamesCompensation(row.op)
    ensures Compensates(w, row, w', outcome)
  {
  }

  lemma RowStays(w: World, row: Intent, token: Token, w': World, outcome: Outcome)
    requires row.op.id in w.db.intents && row == w.db.intents[row.op.id]
    requires (w', outcome) == Compensate(w, row.op.id, token)
    requires row.state == Committed || row.state == Ambiguous ==>
      !HoldsFence(row, token) || row.op.class_ != ReversibleWrite
    ensures w' == w && outcome ==
      if row.state == Compensated then Done(row)
      else if (row.state == Committed || row.state == Ambiguous) && !HoldsFence(row, token) then Failed(StaleFence)
      else Failed(InvalidTransition)
  {
  }

  /** A proposal may be aborted by anyone, a prepared or approved intent by the holder of its fence. */
  ghost predicate MayAbort(w: World, id: string, token: Option<Token>) {
    || StateIs(w.db, id, Proposed)
    || ((StateIs(w.db, id, Prepared) || StateIs(w.db, id, Approved))
        && token.Some? && UnderFence(w.db, id, token.value))
  }

  lemma AbortExactly(w: World, id: string, token: Option<Token>, w': World, outcome: Outcome)
    requires id in w.db.intents ==> w.db.intents[id].op.id == id
    requires (w', outcome) == Abort(w, id, token)
    ensures outcome.Done? <==> StateIs(w.db, id, Aborted) || MayAbort(w, id, token)
    ensures StateIs(w.db, id, Aborted) ==> w' == w && outcome == Done(w.db.intents[id])
    ensures MayAbort(w, id, token) ==>
      && outcome.Done? && outcome.intent == w.db.intents[id].(state := Aborted) && w'.target == w.target
      && Replaces(w.db, w'.db, outcome.intent, AbortedEvent)
    ensures !outcome.Done? ==> w' == w && outcome == Failed(
      if id !in w.db.intents then IntentNotFound
      else if StateIs(w.db, id, Prepared) || StateIs(w.db, id, Approved) then StaleFence else InvalidTransition)
  {
    if id in w.db.intents && token.Some? {
      FenceIsHeld(w.db, id, token.value);
    }
  }
}

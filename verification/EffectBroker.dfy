/** The effect kernel as it runs: a broker that updates tables inside transactions and drives an adapter. */
module EffectBroker {
  import opened Contracts
  import opened Effects
  import opened EffectSafety
  import opened EffectAnswers

  /**
   * The shared tables. A transaction that raises has written nothing yet, since every refusal and every
   * death comes before its first write, so there is nothing to roll back.
   */
  class EffectTables {
    var intents: map<string, Intent>
    var keys: map<string, string>
    var grants: map<string, Grant>
    var outbox: seq<OutboxEvent>
    var published: set<nat>

    constructor ()
      ensures View() == GENESIS.db
    {
      intents, keys, grants, outbox, published := map[], map[], map[], [], {};
    }

    function View(): Database
      reads this
    {
      Database(intents, keys, grants, outbox, published)
    }

    method Enqueue(intent: Intent, kind: EventKind)
      modifies this`outbox
      ensures View() == Enqueued(old(View()), intent, kind)
    {
      outbox := outbox + [OutboxEvent(intent.op.id, kind, intent.state, intent.fence)];
    }

    /** Write a new state, and a grant if one is given, and hand back the row. */
    method SetState(id: string, state: EffectState, grant: Option<string>) returns (row: Intent)
      requires id in intents
      modifies this`intents
      ensures row == old(intents)[id].(state := state, grant := if grant.Some? then grant else old(intents)[id].grant)
      ensures intents == old(intents)[id := row]
    {
      row := intents[id].(state := state);
      if grant.Some? {
        row := row.(grant := grant);
      }
      intents := intents[id := row];
    }
  }

  /** The simulated target; the ghost fields remember when each application happened and which killed the process. */
  class SimulatedEffectAdapter {
    var applications: map<string, Application>
    var compensated: set<string>
    var physicalApplies: map<string, nat>
    var physicalCompensations: map<string, nat>
    var highestFences: map<string, nat>
    var softCrashes: set<string>
    var hardCrashes: set<string>
    ghost var log: seq<Applied>
    ghost var compensations: seq<string>
    ghost var crashed: set<string>

    constructor ()
      ensures View() == GENESIS.target && Valid()
    {
      applications, compensated, physicalApplies, physicalCompensations := map[], {}, map[], map[];
      highestFences, softCrashes, hardCrashes := map[], {}, {};
      log, compensations, crashed := [], [], {};
    }

    ghost function View(): Target
      reads this
    {
      Target(applications, compensated, highestFences, softCrashes, hardCrashes, log, compensations, crashed)
    }

    /** The counters say how often each key was applied and compensated. */
    ghost predicate Valid()
      reads this
    {
      && (forall key :: Count(log, key) == if key in applications then 1 else 0)
      && (forall key :: CountKeys(compensations, key) == if key in compensated then 1 else 0)
      && (forall key :: key in applications ==> key in physicalApplies && physicalApplies[key] == 1)
      && (forall key :: key in physicalApplies ==> key in applications)
      && (forall key :: key in compensated ==> key in physicalCompensations && physicalCompensations[key] == 1)
      && (forall key :: key in physicalCompensations ==> key in compensated)
    }

    method ArmAmbiguousAfterApply(key: string)
      requires Valid()
      modifies this`softCrashes
      ensures Valid() && View() == old(View()).(soft := old(softCrashes) + {key})
      ensures forall db :: Inv(World(db, old(View()))) ==> Inv(World(db, View()))
    {
      ghost var before := View();
      softCrashes := softCrashes + {key};
      StaysSound(before, View());
    }

    method ArmProcessCrashAfterApply(key: string)
      requires Valid()
      modifies this`hardCrashes
      ensures Valid() && View() == old(View()).(hard := old(hardCrashes) + {key})
      ensures forall db :: Inv(World(db, old(View()))) ==> Inv(World(db, View()))
    {
      ghost var before := View();
      hardCrashes := hardCrashes + {key};
      StaysSound(before, View());
    }

    /** Apply once; the ghost time is that of the calling commit. */
    method ExecuteEffect(op: Operation, token: Token, ghost now: nat) returns (execution: Execution)
      requires Valid()
      modifies this
      ensures Valid() && (View(), execution) == Execute(old(View()), op, token.version, now)
    {
      var highest := if op.id in highestFences then highestFences[op.id] else 0;
      if token.version < highest {
        return Fenced;
      }
      highestFences := highestFences[op.id := token.version];
      execution := ApplyOnce(op, token.version, now);
    }

    /** The rest of `execute`: a key is applied only while its count is zero, and its count is one from then on. */
    method ApplyOnce(op: Operation, version: nat, ghost now: nat) returns (execution: Execution)
      requires Valid()
      modifies this
      ensures Valid() && (View(), execution) == Land(old(View()), op, version, now)
      ensures log != old(log) ==> Count(old(log), op.key) == 0
      ensures Count(log, op.key) == 1
    {
      if op.key in applications {
        var existing := applications[op.key];
        if existing.intentId != op.id || existing.digest != op {
          return Conflict;
        }
        return Replayed;
      }
      RecordApplication(op, version, now);
      execution := Acknowledge(op.key);
    }

    /** An armed fault strikes after the application. */
    method Acknowledge(key: string) returns (execution: Execution)
      requires Valid()
      modifies this`softCrashes, this`hardCrashes, this`crashed
      ensures Valid()
      ensures execution ==
        if key in old(hardCrashes) then HardCrash else if key in old(softCrashes) then SoftFault else AppliedNow
      ensures hardCrashes == if execution == HardCrash then old(hardCrashes) - {key} else old(hardCrashes)
      ensures softCrashes == if execution == SoftFault then old(softCrashes) - {key} else old(softCrashes)
      ensures crashed == if execution == HardCrash then old(crashed) + {key} else old(crashed)
    {
      if key in hardCrashes {
        hardCrashes := hardCrashes - {key};
        crashed := crashed + {key};
        return HardCrash;
      }
      if key in softCrashes {
        softCrashes := softCrashes - {key};
        return SoftFault;
      }
      execution := AppliedNow;
    }

    method RecordApplication(op: Operation, version: nat, ghost now: nat)
      requires Valid() && op.key !in applications
      modifies this`applications, this`physicalApplies, this`log
      ensures Valid() && applications == old(applications)[op.key := Application(op.id, op, version)]
      ensures log == old(log) + [Applied(op.key, op.id, now)]
    {
      applications := applications[op.key := Application(op.id, op, version)];
      physicalApplies := physicalApplies[op.key := 1];
      log := log + [Applied(op.key, op.id, now)];
      forall key
        ensures Count(log, key) == if key in applications then 1 else 0
      {
        CountAppend(old(log), Applied(op.key, op.id, now), key);
      }
    }

    /** Whether this very effect was applied; `None` when its key belongs to another one. */
    method WasApplied(op: Operation) returns (applied: Option<bool>)
      requires Valid()
      ensures applied == Some(true) ==> Count(log, op.key) == 1 && Matches(applications[op.key], op)
      ensures applied == Some(false) ==> Count(log, op.key) == 0
      ensures applied == None ==> Count(log, op.key) == 1 && !Matches(applications[op.key], op)
    {
      if op.key !in applications {
        return Some(false);
      }
      var existing := applications[op.key];
      if existing.intentId != op.id || existing.digest != op {
        return None;
      }
      applied := Some(true);
    }

    method CompensateEffect(op: Operation, token: Token) returns (undo: Undo)
      requires Valid()
      modifies this
      ensures Valid() && (View(), undo) == CompensateAtTarget(old(View()), op, token.version)
      ensures undo == Undone ==> Count(log, op.key) == 1 && CountKeys(compensations, op.key) == 1
    {
      if op.class_ != ReversibleWrite {
        return UndoFailed(InvalidTransition);
      }
      var applied := WasApplied(op);
      if applied.None? {
        return UndoFailed(AdapterConflict);
      }
      if !applied.value {
        return UndoFailed(InvalidTransition);
      }
      var highest := if op.id in highestFences then highestFences[op.id] else 0;
      if token.version < highest {
        return UndoFailed(StaleFence);
      }
      highestFences := highestFences[op.id := token.version];
      if op.key in compensated {
        return Undone;
      }
      RecordCompensation(op.key);
      undo := Undone;
    }

    method RecordCompensation(key: string)
      requires Valid() && key !in compensated
      modifies this`compensated, this`physicalCompensations, this`compensations
      ensures Valid() && compensated == old(compensated) + {key} && compensations == old(compensations) + [key]
    {
      compensated := compensated + {key};
      physicalCompensations := physicalCompensations[key := 1];
      compensations := compensations + [key];
      forall k
        ensures CountKeys(compensations, k) == if k in compensated then 1 else 0
      {
        CountKeysAppend(old(compensations), key, k);
      }
    }

    method PhysicalApplyCount(key: string) returns (count: nat)
      requires Valid()
      ensures count == Count(log, key)
    {
      count := if key in physicalApplies then physicalApplies[key] else 0;
    }

    method PhysicalCompensationCount(key: string) returns (count: nat)
      requires Valid()
      ensures count == CountKeys(compensations, key)
    {
      count := if key in physicalCompensations then physicalCompensations[key] else 0;
    }
  }

  /** Arming a fault touches nothing that the invariant reads. */
  lemma StaysSound(before: Target, after: Target)
    requires after.(soft := before.soft, hard := before.hard) == before
    ensures forall db :: Inv(World(db, before)) ==> Inv(World(db, after))
  {
    forall db | Inv(World(db, before))
      ensures Inv(World(db, after))
    {
      ArmingKeepsInv(World(db, before), World(db, after));
    }
  }

  lemma PublishedAlready(published: set<nat>, sequence: nat)
    ensures sequence in published ==> published + {sequence} == published
  {
  }

  class SQLiteEffectBroker {
    const self: Broker
    const tables: EffectTables

    constructor (self: Broker, tables: EffectTables)
      ensures this.self == self && this.tables == tables
    {
      this.self, this.tables := self, tables;
    }

    ghost function Seen(adapter: SimulatedEffectAdapter): World
      reads tables, adapter
    {
      World(tables.View(), adapter.View())
    }

    /**
     * The invariant of the shared tables together with the target, which every call of every broker
     * keeps. A call that does not drive the target names it only for this.
     */
    ghost predicate Sound(adapter: SimulatedEffectAdapter)
      reads tables, adapter
    {
      adapter.Valid() && Inv(Seen(adapter))
    }

    /** Tables and target as they are first made. */
    lemma NewKernelIsSound(adapter: SimulatedEffectAdapter)
      requires Seen(adapter) == GENESIS && adapter.Valid()
      ensures Sound(adapter)
    {
      InvAlways([]);
    }

    // -------------------------------------------------------------- proposals and fences

    method ProposeEffect(op: Operation, ghost adapter: SimulatedEffectAdapter) returns (outcome: Outcome)
      requires Sound(adapter)
      modifies tables
      ensures Sound(adapter) && (Seen(adapter), outcome) == Propose(old(Seen(adapter)), op)
      ensures !outcome.Done? ==> tables.View() == old(tables.View())
      ensures outcome.Done? ==>
        && outcome.intent.op.key == op.key && SameOperation(outcome.intent.op, op)
        && outcome.intent.op.id in tables.intents && tables.intents[outcome.intent.op.id] == outcome.intent
    {
      ghost var before := Seen(adapter);
      outcome := ProposeRow(op, adapter.View());
      ghost var after := Seen(adapter);
      ProposalServed(before, op, after, outcome);
    }

    method ProposeRow(op: Operation, ghost target: Target) returns (outcome: Outcome)
      modifies tables
      ensures (World(tables.View(), target), outcome) == Propose(World(old(tables.View()), target), op)
    {
      if op.runId == "" || op.action == "" || op.resource == "" || op.key == "" {
        return Failed(InvalidRequest);
      }
      if op.class_ != IdempotentWrite && op.class_ != ReversibleWrite && op.class_ != IrreversibleWrite {
        return Failed(InvalidRequest);
      }
      if op.class_ == ReversibleWrite && (op.compensation.None? || op.compensation.value == "") {
        return Failed(InvalidRequest);
      }
      if op.key in tables.keys && tables.keys[op.key] in tables.intents {
        var existing := tables.intents[tables.keys[op.key]];
        if SameOperation(existing.op, op) {
          return Done(existing);
        }
        return Failed(IdempotencyConflict);
      }
      if op.id in tables.intents {
        return Failed(IntegrityError);
      }
      outcome := InsertIntent(op);
    }

    method InsertIntent(op: Operation) returns (outcome: Outcome)
      modifies tables
      ensures var next := Intent(op, Proposed, 0, None, None);
        && outcome == Done(next)
        && tables.View() == Written(old(tables.View()), next, ProposedEvent).(keys := old(tables.keys)[op.key := op.id])
    {
      var intent := Intent(op, Proposed, 0, None, None);
      tables.intents := tables.intents[op.id := intent];
      tables.keys := tables.keys[op.key := op.id];
      tables.Enqueue(intent, ProposedEvent);
      outcome := Done(intent);
    }

    method PrepareEffect(id: string, ghost adapter: SimulatedEffectAdapter) returns (outcome: Outcome)
      requires Sound(adapter)
      modifies tables
      ensures Sound(adapter) && (Seen(adapter), outcome) == Prepare(old(Seen(adapter)), self, id)
      ensures !outcome.Done? ==> tables.View() == old(tables.View())
      ensures outcome.Done? ==>
        && id in tables.intents && tables.intents[id] == outcome.intent
        && outcome.intent.state == Prepared && HoldsFence(outcome.intent, Token(id, 1, self.id))
    {
      ghost var before := Seen(adapter);
      RowsCarryTheirIds(before, id);
      outcome := PrepareRow(id, adapter.View());
      ghost var after := Seen(adapter);
      PreparationServed(before, self, id, after, outcome);
    }

    method PrepareRow(id: string, ghost target: Target) returns (outcome: Outcome)
      requires id in tables.intents ==> tables.intents[id].op.id == id
      modifies tables
      ensures (World(tables.View(), target), outcome) == Prepare(World(old(tables.View()), target), self, id)
    {
      if id !in tables.intents {
        return Failed(IntentNotFound);
      }
      var intent := tables.intents[id];
      if intent.state != Proposed {
        return Failed(InvalidTransition);
      }
      var next := intent.(state := Prepared, fence := intent.fence + 1, owner := Some(self.id));
      var prepared := WriteRow(next, PreparedEvent);
      outcome := Done(prepared);
    }

    /** One transaction's update of a row, read back, with its event. */
    method WriteRow(next: Intent, kind: EventKind) returns (row: Intent)
      modifies tables
      ensures row == next && tables.View() == Written(old(tables.View()), next, kind)
    {
      tables.intents := tables.intents[next.op.id := next];
      row := tables.intents[next.op.id];
      tables.Enqueue(row, kind);
    }

    method AcquireFenceOn(id: string, ghost adapter: SimulatedEffectAdapter) returns (outcome: Outcome)
      requires Sound(adapter)
      modifies tables
      ensures Sound(adapter) && (Seen(adapter), outcome) == AcquireFence(old(Seen(adapter)), self, id)
      ensures !outcome.Done? ==> tables.View() == old(tables.View())
      ensures outcome.Done? ==>
        && id in tables.intents && tables.intents[id] == outcome.intent
        && id in old(tables.intents)
        && HeldOnlyUnder(outcome.intent, Token(id, old(tables.intents)[id].fence + 1, self.id))
    {
      ghost var before := Seen(adapter);
      RowsCarryTheirIds(before, id);
      outcome := FenceRow(id, adapter.View());
      ghost var after := Seen(adapter);
      TakeoverServed(before, self, id, after, outcome);
    }

    method FenceRow(id: string, ghost target: Target) returns (outcome: Outcome)
      requires id in tables.intents ==> tables.intents[id].op.id == id
      modifies tables
      ensures (World(tables.View(), target), outcome) == AcquireFence(World(old(tables.View()), target), self, id)
    {
      if id !in tables.intents {
        return Failed(IntentNotFound);
      }
      var intent := tables.intents[id];
      if intent.state != Prepared && intent.state != Approved && intent.state != Ambiguous {
        return Failed(InvalidTransition);
      }
      var fenced := WriteRow(intent.(fence := intent.fence + 1, owner := Some(self.id)), FenceEvent);
      outcome := Done(fenced);
    }

    // -------------------------------------------------------------- approvals

    /** Accepts exactly what a trusted authority issues for the operation, in its interval if time counts. */
    method VerifyGrant(op: Operation, grant: Grant, enforceTime: bool, now: nat) returns (valid: bool)
      ensures valid <==>
        IssuedFor(self, op, grant) && (enforceTime ==> grant.claims.notBefore <= now < grant.claims.expires)
    {
      VerifiedIffIssued(self, op, grant, enforceTime, now);
      if grant.claims.keyId !in self.keys {
        return false;
      }
      if Hmac(self.keys[grant.claims.keyId], grant.claims) != grant.signature {
        return false;
      }
      if grant.claims.principal == "" {
        return false;
      }
      if !ExactScope(op, grant) {
        return false;
      }
      if grant.claims.expires <= grant.claims.notBefore {
        return false;
      }
      valid := !(enforceTime && !(grant.claims.notBefore <= now < grant.claims.expires));
    }

    method ApproveEffect(id: string, token: Token, grant: Option<Grant>, now: nat,
        ghost adapter: SimulatedEffectAdapter)
      returns (outcome: Outcome)
      requires Sound(adapter)
      modifies tables
      ensures Sound(adapter) && (Seen(adapter), outcome) == Approve(old(Seen(adapter)), self, id, token, grant, now)
      ensures !outcome.Done? ==> tables.View() == old(tables.View())
      ensures outcome.Done? ==>
        && id in tables.intents && tables.intents[id] == outcome.intent && PastPreparation(outcome.intent.state)
        && (outcome.intent.op.class_ == IrreversibleWrite ==> Authorized(tables.View(), outcome.intent))
    {
      ghost var before := Seen(adapter);
      RowsCarryTheirIds(before, id);
      outcome := ApproveRow(id, token, grant, now, adapter.View());
      ghost var after := Seen(adapter);
      ApprovalServed(before, self, id, token, grant, now, after, outcome);
    }

    method ApproveRow(id: string, token: Token, grant: Option<Grant>, now: nat, ghost target: Target)
      returns (outcome: Outcome)
      requires id in tables.intents ==> tables.intents[id].op.id == id
      modifies tables
      ensures (World(tables.View(), target), outcome) ==
        Approve(World(old(tables.View()), target), self, id, token, grant, now)
    {
      if id !in tables.intents {
        return Failed(IntentNotFound);
      }
      var intent := tables.intents[id];
      if intent.state == Approved || intent.state == Ambiguous || intent.state == Committed
        || intent.state == Compensated {
        if intent.op.class_ == IrreversibleWrite && (grant.None? || Some(grant.value.claims.grantId) != intent.grant) {
          return Failed(InvalidApproval);
        }
        return Done(intent);
      }
      if intent.state != Prepared {
        return Failed(InvalidTransition);
      }
      if !HoldsFence(intent, token) {
        return Failed(StaleFence);
      }
      var grantId := None;
      if intent.op.class_ == IrreversibleWrite {
        if grant.None? {
          return Failed(ApprovalRequired);
        }
        VerifiedIffIssued(self, intent.op, grant.value, true, now);
        var valid := VerifyGrant(intent.op, grant.value, true, now);
        if !valid {
          return Failed(InvalidApproval);
        }
        var unused := InsertGrant(grant.value);
        if !unused {
          return Failed(InvalidApproval);
        }
        grantId := Some(grant.value.claims.grantId);
      } else if grant.Some? {
        return Failed(InvalidApproval);
      }
      var approved := tables.SetState(id, Approved, grantId);
      tables.Enqueue(approved, ApprovedEvent);
      outcome := Done(approved);
    }

    /** The two unique columns of the grants table. */
    method InsertGrant(grant: Grant) returns (unused: bool)
      modifies tables`grants
      ensures unused == GrantIsFree(old(tables.View()), grant)
      ensures tables.grants == if unused then old(tables.grants)[grant.claims.grantId := grant] else old(tables.grants)
    {
      if grant.claims.grantId in tables.grants {
        return false;
      }
      var rest := tables.grants.Keys;
      while rest != {}
        invariant rest <= tables.grants.Keys
        invariant forall h :: h in tables.grants && h !in rest ==>
          tables.grants[h].claims.intentId != grant.claims.intentId
        decreases |rest|
      {
        var h :| h in rest;
        if tables.grants[h].claims.intentId == grant.claims.intentId {
          return false;
        }
        rest := rest - {h};
      }
      tables.grants := tables.grants[grant.claims.grantId := grant];
      unused := true;
    }

    // -------------------------------------------------------------- commits

    /**
     * A success means one physical application of the key, in the committed or compensated row it hands
     * back; so do a recorded lost acknowledgement and a death. Every other answer leaves the tables alone.
     */
    method CommitEffect(id: string, token: Token, adapter: SimulatedEffectAdapter, now: nat) returns (outcome: Outcome)
      requires Sound(adapter)
      modifies tables, adapter
      ensures Sound(adapter) && (Seen(adapter), outcome) == Commit(old(Seen(adapter)), self, id, token, now)
      ensures outcome.Done? ==>
        && id in tables.intents && tables.intents[id] == outcome.intent
        && (outcome.intent.state == Committed || outcome.intent.state == Compensated)
        && Count(adapter.log, outcome.intent.op.key) == 1
      ensures outcome == Failed(AmbiguousCommit) ==>
        && id in tables.intents && tables.intents[id].state == Ambiguous
        && Count(adapter.log, tables.intents[id].op.key) == 1
      ensures outcome.Died? ==>
        && tables.View() == old(tables.View()) && id in tables.intents
        && Count(adapter.log, tables.intents[id].op.key) == 1
      ensures outcome.Failed? && outcome.error != AmbiguousCommit ==> tables.View() == old(tables.View())
    {
      ghost var before := Seen(adapter);
      RowsCarryTheirIds(before, id);
      outcome := CommitRow(id, token, adapter, now);
      ghost var after := Seen(adapter);
      CommitServed(before, self, id, token, now, after, outcome);
    }

    method CommitRow(id: string, token: Token, adapter: SimulatedEffectAdapter, now: nat) returns (outcome: Outcome)
      requires adapter.Valid() && (id in tables.intents ==> tables.intents[id].op.id == id)
      modifies tables, adapter
      ensures adapter.Valid()
      ensures (Seen(adapter), outcome) == Commit(old(Seen(adapter)), self, id, token, now)
    {
      if id !in tables.intents {
        return Failed(IntentNotFound);
      }
      var intent := tables.intents[id];
      var op := intent.op;
      if intent.state == Committed || intent.state == Compensated {
        return Done(intent);
      }
      if intent.state != Approved && intent.state != Ambiguous {
        return Failed(InvalidTransition);
      }
      if !HoldsFence(intent, token) {
        return Failed(StaleFence);
      }
      var already := false;
      if intent.state == Ambiguous {
        var applied := adapter.WasApplied(op);
        if applied.None? {
          return Failed(AdapterConflict);
        }
        already := applied.value;
      }
      if op.class_ == IrreversibleWrite {
        if intent.grant.None? || intent.grant.value !in tables.grants {
          return Failed(ApprovalRequired);
        }
        VerifiedIffIssued(self, op, tables.grants[intent.grant.value], !already, now);
        var valid := VerifyGrant(op, tables.grants[intent.grant.value], !already, now);
        if !valid {
          return Failed(InvalidApproval);
        }
      }
      if already {
        var reconciled := tables.SetState(id, Committed, None);
        tables.Enqueue(reconciled, CommittedEvent);
        return Done(reconciled);
      }
      outcome := AttemptEffect(id, token, adapter, now);
    }

    /** The rest of the commit transaction: the target acts before any row is written. */
    method AttemptEffect(id: string, token: Token, adapter: SimulatedEffectAdapter, now: nat) returns (outcome: Outcome)
      requires adapter.Valid() && id in tables.intents && tables.intents[id].op.id == id
      modifies tables, adapter
      ensures adapter.Valid()
      ensures (Seen(adapter), outcome) == Attempted(old(Seen(adapter)), old(tables.intents[id]), token, now)
    {
      var execution := adapter.ExecuteEffect(tables.intents[id].op, token, now);
      match execution
      case Fenced => outcome := Failed(StaleFence);
      case Conflict => outcome := Failed(AdapterConflict);
      case HardCrash => outcome := Died;
      case SoftFault =>
        var ambiguous := tables.SetState(id, Ambiguous, None);
        tables.Enqueue(ambiguous, AmbiguousEvent);
        outcome := Failed(AmbiguousCommit);
      case _ =>
        var committed := tables.SetState(id, Committed, None);
        tables.Enqueue(committed, CommittedEvent);
        outcome := Done(committed);
    }

    // -------------------------------------------------------------- compensations and aborts

    method CompensateIntent(id: string, token: Token, adapter: SimulatedEffectAdapter) returns (outcome: Outcome)
      requires Sound(adapter)
      modifies tables, adapter
      ensures Sound(adapter) && (Seen(adapter), outcome) == Compensate(old(Seen(adapter)), id, token)
      ensures !outcome.Done? ==> tables.View() == old(tables.View())
      ensures outcome.Done? ==>
        && id in tables.intents && tables.intents[id] == outcome.intent
        && outcome.intent.state == Compensated && outcome.intent.op.class_ == ReversibleWrite
        && Count(adapter.log, outcome.intent.op.key) == 1
        && CountKeys(adapter.compensations, outcome.intent.op.key) == 1
    {
      ghost var before := Seen(adapter);
      RowsCarryTheirIds(before, id);
      outcome := CompensateRow(id, token, adapter);
      ghost var after := Seen(adapter);
      CompensationServed(before, id, token, after, outcome);
    }

    method CompensateRow(id: string, token: Token, adapter: SimulatedEffectAdapter) returns (outcome: Outcome)
      requires adapter.Valid() && (id in tables.intents ==> tables.intents[id].op.id == id)
      modifies tables, adapter
      ensures adapter.Valid()
      ensures (Seen(adapter), outcome) == Compensate(old(Seen(adapter)), id, token)
    {
      if id !in tables.intents {
        return Failed(IntentNotFound);
      }
      var intent := tables.intents[id];
      if intent.state == Compensated {
        return Done(intent);
      }
      if intent.state != Committed && intent.state != Ambiguous {
        return Failed(InvalidTransition);
      }
      if !HoldsFence(intent, token) {
        return Failed(StaleFence);
      }
      if intent.op.class_ != ReversibleWrite || intent.op.compensation.None? || intent.op.compensation.value == "" {
        return Failed(InvalidTransition);
      }
      var undo := adapter.CompensateEffect(intent.op, token);
      if undo.UndoFailed? {
        return Failed(undo.error);
      }
      var compensated := tables.SetState(id, Compensated, None);
      tables.Enqueue(compensated, CompensatedEvent);
      outcome := Done(compensated);
    }

    /** An aborted effect was applied only if the process died right after its application. */
    method AbortEffect(id: string, token: Option<Token>, ghost adapter: SimulatedEffectAdapter)
      returns (outcome: Outcome)
      requires Sound(adapter)
      modifies tables
      ensures Sound(adapter) && (Seen(adapter), outcome) == Abort(old(Seen(adapter)), id, token)
      ensures !outcome.Done? ==> tables.View() == old(tables.View())
      ensures outcome.Done? ==>
        && id in tables.intents && tables.intents[id] == outcome.intent && outcome.intent.state == Aborted
        && (Count(adapter.log, outcome.intent.op.key) == 0 <==> outcome.intent.op.key !in adapter.crashed)
    {
      ghost var before := Seen(adapter);
      RowsCarryTheirIds(before, id);
      outcome := AbortRow(id, token, adapter.View());
      ghost var after := Seen(adapter);
      AbortServed(before, id, token, after, outcome);
    }

    method AbortRow(id: string, token: Option<Token>, ghost target: Target) returns (outcome: Outcome)
      requires id in tables.intents ==> tables.intents[id].op.id == id
      modifies tables
      ensures (World(tables.View(), target), outcome) == Abort(World(old(tables.View()), target), id, token)
    {
      if id !in tables.intents {
        return Failed(IntentNotFound);
      }
      var intent := tables.intents[id];
      if intent.state == Aborted {
        return Done(intent);
      }
      if intent.state != Proposed && intent.state != Prepared && intent.state != Approved {
        return Failed(InvalidTransition);
      }
      if intent.state != Proposed {
        if token.None? || !HoldsFence(intent, token.value) {
          return Failed(StaleFence);
        }
      }
      var aborted := WriteRow(intent.(state := Aborted), AbortedEvent);
      outcome := Done(aborted);
    }

    // -------------------------------------------------------------- the outbox

    /** The first `limit` unpublished events in sequence order. */
    method PendingOutbox(limit: nat) returns (pending: seq<nat>)
      requires limit > 0
      ensures |pending| <= limit
      ensures forall i :: 0 <= i < |pending| ==> pending[i] < |tables.outbox| && pending[i] !in tables.published
      ensures forall i, j :: 0 <= i < j < |pending| ==> pending[i] < pending[j]
      ensures forall n: nat :: n < |tables.outbox| && n !in tables.published && n !in pending ==>
        |pending| == limit && pending[limit - 1] < n
    {
      pending := [];
      var n := 0;
      while n < |tables.outbox| && |pending| < limit
        invariant n <= |tables.outbox| && |pending| <= limit
        invariant forall i :: 0 <= i < |pending| ==> pending[i] < n && pending[i] !in tables.published
        invariant forall i, j :: 0 <= i < j < |pending| ==> pending[i] < pending[j]
        invariant forall m: nat :: m < n && m !in tables.published ==> m in pending
      {
        if n !in tables.published {
          pending := pending + [n];
        }
        n := n + 1;
      }
    }

    /** A known event is published from now on and nothing else changes; repeating the call changes nothing. */
    method MarkOutboxPublished(sequence: nat, ghost adapter: SimulatedEffectAdapter) returns (outcome: Outcome)
      requires Sound(adapter)
      modifies tables`published
      ensures Sound(adapter) && (Seen(adapter), outcome) == Taken(old(Seen(adapter)), Publish(sequence))
      ensures outcome == Acknowledged <==> sequence < |tables.outbox|
      ensures forall n: nat :: n in tables.published <==>
        n in old(tables.published) || (n == sequence && sequence < |tables.outbox|)
      ensures sequence in old(tables.published) ==> tables.View() == old(tables.View())
    {
      ghost var before := Seen(adapter);
      ghost var after := Taken(before, Publish(sequence)).0;
      PublishKeepsInv(before, sequence, after);
      if sequence >= |tables.outbox| {
        return Failed(UnknownEvent);
      }
      tables.published := tables.published + {sequence};
      outcome := Acknowledged;
      PublishedAlready(before.db.published, sequence);
      assert Seen(adapter) == after;
    }
  }
}

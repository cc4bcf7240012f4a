/**
 * The effect kernel as a step system: several brokers share one transactional database of intents,
 * grants and outbox events, and drive one external target.
 */
module Effects {
  import opened Contracts

  datatype EffectClass = Pure | Read | IdempotentWrite | ReversibleWrite | IrreversibleWrite

  datatype EffectState = Proposed | Prepared | Approved | Committed | Aborted | Ambiguous | Compensated

  /** The immutable part of an intent; a digest of it stands for the operation itself. */
  datatype Operation = Operation(
    id: string, runId: string, action: string, resource: string, class_: EffectClass,
    key: string, payload: string, compensation: Option<string>)

  datatype Intent = Intent(
    op: Operation, state: EffectState, fence: nat, owner: Option<string>, grant: Option<string>)

  datatype Token = Token(intent: string, version: nat, owner: string)

  datatype Claims = Claims(
    grantId: string, keyId: string, principal: string, intentId: string, runId: string,
    digest: Operation, resource: string, action: string, notBefore: nat, expires: nat)

  /** An ideal message authentication code: it can only be made from the secret and the claims. */
  datatype Signature = Hmac(secret: string, claims: Claims)

  datatype Grant = Grant(claims: Claims, signature: Signature)

  datatype EventKind =
    | ProposedEvent | PreparedEvent | FenceEvent | ApprovedEvent
    | CommittedEvent | AmbiguousEvent | CompensatedEvent | AbortedEvent

  datatype OutboxEvent = OutboxEvent(intent: string, kind: EventKind, state: EffectState, fence: nat)

  /** The tables; `keys` is the unique index on idempotency keys, `published` the acknowledged events. */
  datatype Database = Database(
    intents: map<string, Intent>,
    keys: map<string, string>,
    grants: map<string, Grant>,
    outbox: seq<OutboxEvent>,
    published: set<nat>)

  datatype Application = Application(intentId: string, digest: Operation, fence: nat)

  /** One physical application at the target and the time of the commit that made it. */
  datatype Applied = Applied(key: string, intent: string, at: nat)

  /**
   * The external target. `log` and `compensations` record each physical application and
   * compensation, and `crashed` the keys whose application was followed by a process death.
   */
  datatype Target = Target(
    applications: map<string, Application>,
    compensated: set<string>,
    highest: map<string, nat>,
    soft: set<string>,
    hard: set<string>,
    log: seq<Applied>,
    compensations: seq<string>,
    crashed: set<string>)

  datatype Broker = Broker(id: string, keys: map<string, string>)

  datatype World = World(db: Database, target: Target)

  datatype EffectError =
    | InvalidRequest | IntentNotFound | InvalidTransition | IdempotencyConflict | IntegrityError
    | StaleFence | ApprovalRequired | InvalidApproval | AdapterConflict | AmbiguousCommit | UnknownEvent

  datatype Outcome = Done(intent: Intent) | Acknowledged | Failed(error: EffectError) | Died

  // ---------------------------------------------------------------- database helpers

  function Enqueued(db: Database, intent: Intent, kind: EventKind): Database {
    db.(outbox := db.outbox + [OutboxEvent(intent.op.id, kind, intent.state, intent.fence)])
  }

  /** Replace a row and append the event of the same transaction. */
  function Written(db: Database, intent: Intent, kind: EventKind): Database {
    Enqueued(db.(intents := db.intents[intent.op.id := intent]), intent, kind)
  }

  predicate HoldsFence(intent: Intent, token: Token) {
    token.intent == intent.op.id && token.version == intent.fence && intent.owner == Some(token.owner)
  }

  predicate IsWrite(c: EffectClass) {
    c == IdempotentWrite || c == ReversibleWrite || c == IrreversibleWrite
  }

  // ---------------------------------------------------------------- proposals and fences

  predicate NamesCompensation(op: Operation) {
    op.compensation.Some? && op.compensation.value != ""
  }

  function Propose(w: World, op: Operation): (World, Outcome) {
    if op.runId == "" || op.action == "" || op.resource == "" || op.key == "" then (w, Failed(InvalidRequest))
    else if !IsWrite(op.class_) then (w, Failed(InvalidRequest))
    else if op.class_ == ReversibleWrite && !NamesCompensation(op) then (w, Failed(InvalidRequest))
    else if op.key in w.db.keys && w.db.keys[op.key] in w.db.intents then
      var existing := w.db.intents[w.db.keys[op.key]];
      if SameOperation(existing.op, op) then (w, Done(existing)) else (w, Failed(IdempotencyConflict))
    else if op.id in w.db.intents then (w, Failed(IntegrityError))
    else
      var intent := Intent(op, Proposed, 0, None, None);
      (w.(db := Written(w.db, intent, ProposedEvent).(keys := w.db.keys[op.key := op.id])), Done(intent))
  }

  /** An exact replay may come from another run. */
  predicate SameOperation(a: Operation, b: Operation) {
    a.action == b.action && a.resource == b.resource && a.class_ == b.class_ && a.payload == b.payload
    && a.compensation == b.compensation
  }

  function Prepare(w: World, b: Broker, id: string): (World, Outcome) {
    if id !in w.db.intents then (w, Failed(IntentNotFound)) else
    var intent := w.db.intents[id];
    if intent.state != Proposed then (w, Failed(InvalidTransition)) else
    var next := intent.(state := Prepared, fence := intent.fence + 1, owner := Some(b.id));
    (w.(db := Written(w.db, next, PreparedEvent)), Done(next))
  }

  function AcquireFence(w: World, b: Broker, id: string): (World, Outcome) {
    if id !in w.db.intents then (w, Failed(IntentNotFound)) else
    var intent := w.db.intents[id];
    if intent.state != Prepared && intent.state != Approved && intent.state != Ambiguous
    then (w, Failed(InvalidTransition))
    else
      var next := intent.(fence := intent.fence + 1, owner := Some(b.id));
      (w.(db := Written(w.db, next, FenceEvent)), Done(next))
  }

  // ---------------------------------------------------------------- approval

  /** `issue`: the grant an authority signs for an operation, whose scope may be overridden. */
  function Issued(keyId: string, secret: string, op: Operation, principal: string, at: nat, ttl: nat, grantId: string,
      resource: string, action: string): Grant
  {
    var claims := Claims(grantId, keyId, principal, op.id, op.runId, op, resource, action, at, at + ttl);
    Grant(claims, Hmac(secret, claims))
  }

  /** `_verify_grant` at clock reading `now`. */
  predicate GrantVerifies(b: Broker, op: Operation, g: Grant, enforceTime: bool, now: nat) {
    && g.claims.keyId in b.keys
    && g.signature == Hmac(b.keys[g.claims.keyId], g.claims)
    && g.claims.principal != ""
    && ExactScope(op, g)
    && g.claims.notBefore < g.claims.expires
    && (enforceTime ==> g.claims.notBefore <= now < g.claims.expires)
  }

  predicate ExactScope(op: Operation, g: Grant) {
    && g.claims.intentId == op.id && g.claims.runId == op.runId && g.claims.digest == op
    && g.claims.resource == op.resource && g.claims.action == op.action
  }

  /** The grants table: grant identifiers and granted intents are both unique. */
  predicate GrantIsFree(db: Database, g: Grant) {
    g.claims.grantId !in db.grants && forall h :: h in db.grants ==> db.grants[h].claims.intentId != g.claims.intentId
  }

  function Approve(w: World, b: Broker, id: string, token: Token, grant: Option<Grant>, now: nat): (World, Outcome) {
    if id !in w.db.intents then (w, Failed(IntentNotFound)) else
    var intent := w.db.intents[id];
    var op := intent.op;
    if intent.state == Approved || intent.state == Ambiguous || intent.state == Committed
      || intent.state == Compensated then
      if op.class_ == IrreversibleWrite && (grant.None? || intent.grant != Some(grant.value.claims.grantId))
      then (w, Failed(InvalidApproval)) else (w, Done(intent))
    else if intent.state != Prepared then (w, Failed(InvalidTransition))
    else if !HoldsFence(intent, token) then (w, Failed(StaleFence))
    else if op.class_ == IrreversibleWrite then
      if grant.None? then (w, Failed(ApprovalRequired))
      else if !GrantVerifies(b, op, grant.value, true, now) then (w, Failed(InvalidApproval))
      else if !GrantIsFree(w.db, grant.value) then (w, Failed(InvalidApproval))
      else
        var g := grant.value;
        var next := intent.(state := Approved, grant := Some(g.claims.grantId));
        (w.(db := Written(w.db.(grants := w.db.grants[g.claims.grantId := g]), next, ApprovedEvent)), Done(next))
    else if grant.Some? then (w, Failed(InvalidApproval))
    else
      var next := intent.(state := Approved);
      (w.(db := Written(w.db, next, ApprovedEvent)), Done(next))
  }

  // ---------------------------------------------------------------- the target

  datatype Execution = Fenced | Conflict | Replayed | AppliedNow | SoftFault | HardCrash

  function Highest(t: Target, id: string): nat {
    if id in t.highest then t.highest[id] else 0
  }

  predicate Matches(a: Application, op: Operation) {
    a.intentId == op.id && a.digest == op
  }

  /** `execute` on behalf of a commit at time `now`. */
  function Execute(t: Target, op: Operation, version: nat, now: nat): (Target, Execution) {
    if version < Highest(t, op.id) then (t, Fenced)
    else Land(t.(highest := t.highest[op.id := version]), op, version, now)
  }

  /** The target's part once the fence is accepted: replay, refuse, or apply and perhaps fail. */
  function Land(t: Target, op: Operation, version: nat, now: nat): (Target, Execution) {
    if op.key in t.applications then
      if Matches(t.applications[op.key], op) then (t, Replayed) else (t, Conflict)
    else
      var applied := t.(
        applications := t.applications[op.key := Application(op.id, op, version)],
        log := t.log + [Applied(op.key, op.id, now)]);
      if op.key in t.hard then
        (applied.(hard := t.hard - {op.key}, crashed := t.crashed + {op.key}), HardCrash)
      else if op.key in t.soft then (applied.(soft := t.soft - {op.key}), SoftFault)
      else (applied, AppliedNow)
  }

  datatype Undo = Undone | UndoFailed(error: EffectError)

  function CompensateAtTarget(t: Target, op: Operation, version: nat): (Target, Undo) {
    if op.class_ != ReversibleWrite then (t, UndoFailed(InvalidTransition))
    else if op.key !in t.applications then (t, UndoFailed(InvalidTransition))
    else if !Matches(t.applications[op.key], op) then (t, UndoFailed(AdapterConflict))
    else if version < Highest(t, op.id) then (t, UndoFailed(StaleFence))
    else
      var seen := t.(highest := t.highest[op.id := version]);
      if op.key in t.compensated then (seen, Undone)
      else (seen.(compensated := t.compensated + {op.key}, compensations := t.compensations + [op.key]), Undone)
  }

  // ---------------------------------------------------------------- commit, compensate, abort

  function Commit(w: World, b: Broker, id: string, token: Token, now: nat): (World, Outcome) {
    if id !in w.db.intents then (w, Failed(IntentNotFound)) else
    var intent := w.db.intents[id];
    var op := intent.op;
    if intent.state == Committed || intent.state == Compensated then (w, Done(intent))
    else if intent.state != Approved && intent.state != Ambiguous then (w, Failed(InvalidTransition))
    else if !HoldsFence(intent, token) then (w, Failed(StaleFence))
    else if intent.state == Ambiguous && op.key in w.target.applications && !Matches(w.target.applications[op.key], op)
    then (w, Failed(AdapterConflict))
    else
      var already := intent.state == Ambiguous && op.key in w.target.applications;
      if op.class_ == IrreversibleWrite && (intent.grant.None? || intent.grant.value !in w.db.grants) then
        (w, Failed(ApprovalRequired))
      else if op.class_ == IrreversibleWrite
           && !GrantVerifies(b, op, w.db.grants[intent.grant.value], !already, now) then
        (w, Failed(InvalidApproval))
      else if already then
        var next := intent.(state := Committed);
        (w.(db := Written(w.db, next, CommittedEvent)), Done(next))
      else Attempted(w, intent, token, now)
  }

  /** The part of a commit that calls the target; any failure but a soft fault rolls the rows back. */
  function Attempted(w: World, intent: Intent, token: Token, now: nat): (World, Outcome) {
    var (t, execution) := Execute(w.target, intent.op, token.version, now);
    match execution
    case Fenced => (w.(target := t), Failed(StaleFence))
    case Conflict => (w.(target := t), Failed(AdapterConflict))
    case HardCrash => (w.(target := t), Died)
    case SoftFault => (World(Written(w.db, intent.(state := Ambiguous), AmbiguousEvent), t), Failed(AmbiguousCommit))
    case _ =>
      var next := intent.(state := Committed);
      (World(Written(w.db, next, CommittedEvent), t), Done(next))
  }

  function Compensate(w: World, id: string, token: Token): (World, Outcome) {
    if id !in w.db.intents then (w, Failed(IntentNotFound)) else
    var intent := w.db.intents[id];
    if intent.state == Compensated then (w, Done(intent))
    else if intent.state != Committed && intent.state != Ambiguous then (w, Failed(InvalidTransition))
    else if !HoldsFence(intent, token) then (w, Failed(StaleFence))
    else if intent.op.class_ != ReversibleWrite || !NamesCompensation(intent.op) then (w, Failed(InvalidTransition))
    else
      var (t, undo) := CompensateAtTarget(w.target, intent.op, token.version);
      match undo
      case UndoFailed(error) => (w.(target := t), Failed(error))
      case Undone =>
        var next := intent.(state := Compensated);
        (World(Written(w.db, next, CompensatedEvent), t), Done(next))
  }

  function Abort(w: World, id: string, token: Option<Token>): (World, Outcome) {
    if id !in w.db.intents then (w, Failed(IntentNotFound)) else
    var intent := w.db.intents[id];
    if intent.state == Aborted then (w, Done(intent))
    else if intent.state != Proposed && intent.state != Prepared && intent.state != Approved
    then (w, Failed(InvalidTransition))
    else if intent.state != Proposed && (token.None? || !HoldsFence(intent, token.value)) then (w, Failed(StaleFence))
    else
      var next := intent.(state := Aborted);
      (w.(db := Written(w.db, next, AbortedEvent)), Done(next))
  }

  // ---------------------------------------------------------------- steps of the whole system

  /** One call of some broker, one fault armed at the target, or one outbox acknowledgement. */
  datatype Step =
    | ProposeStep(op: Operation)
    | PrepareStep(broker: Broker, id: string)
    | FenceStep(broker: Broker, id: string)
    | ApproveStep(broker: Broker, id: string, token: Token, grant: Option<Grant>, now: nat)
    | CommitStep(broker: Broker, id: string, token: Token, now: nat)
    | CompensateStep(id: string, token: Token)
    | AbortStep(id: string, maybeToken: Option<Token>)
    | ArmSoft(key: string)
    | ArmHard(key: string)
    | Publish(sequence: nat)

  function Taken(w: World, step: Step): (World, Outcome) {
    match step
    case ProposeStep(op) => Propose(w, op)
    case PrepareStep(b, id) => Prepare(w, b, id)
    case FenceStep(b, id) => AcquireFence(w, b, id)
    case ApproveStep(b, id, token, grant, now) => Approve(w, b, id, token, grant, now)
    case CommitStep(b, id, token, now) => Commit(w, b, id, token, now)
    case CompensateStep(id, token) => Compensate(w, id, token)
    case AbortStep(id, token) => Abort(w, id, token)
    case ArmSoft(key) => (w.(target := w.target.(soft := w.target.soft + {key})), Acknowledged)
    case ArmHard(key) => (w.(target := w.target.(hard := w.target.hard + {key})), Acknowledged)
    case Publish(sequence) =>
      if sequence >= |w.db.outbox| then (w, Failed(UnknownEvent))
      else (w.(db := w.db.(published := w.db.published + {sequence})), Acknowledged)
  }

  const GENESIS := World(
    Database(map[], map[], map[], [], {}),
    Target(map[], {}, map[], {}, {}, [], [], {}))

  /** Any interleaving of steps from the empty database and an untouched target. */
  function After(steps: seq<Step>): World {
    if steps == [] then GENESIS else Taken(After(steps[..|steps| - 1]), steps[|steps| - 1]).0
  }
}

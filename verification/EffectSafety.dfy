/** Safety of the effect kernel under every interleaving of brokers, takeovers and crashes. */
module EffectSafety {
  import opened Contracts
  import opened Effects

  // ---------------------------------------------------------------- what is counted

  ghost function Count(log: seq<Applied>, key: string): nat {
    if log == [] then 0 else
    Count(log[..|log| - 1], key) + if log[|log| - 1].key == key then 1 else 0
  }

  ghost function CountKeys(keys: seq<string>, key: string): nat {
    if keys == [] then 0 else
    CountKeys(keys[..|keys| - 1], key) + if keys[|keys| - 1] == key then 1 else 0
  }

  /** The outbox events of one intent, in sequence order. */
  ghost function PathOf(outbox: seq<OutboxEvent>, id: string): seq<OutboxEvent> {
    if outbox == [] then [] else
    var last := outbox[|outbox| - 1];
    PathOf(outbox[..|outbox| - 1], id) + if last.intent == id then [last] else []
  }

  /** The edges of the lifecycle automaton, with what each does to the fence version. */
  ghost predicate Edge(from: OutboxEvent, to: OutboxEvent) {
    match to.kind
    case ProposedEvent => false
    case PreparedEvent => from.state == Proposed && to.state == Prepared && to.fence == from.fence + 1
    case FenceEvent =>
      && (from.state == Prepared || from.state == Approved || from.state == Ambiguous)
      && to.state == from.state && to.fence == from.fence + 1
    case ApprovedEvent => from.state == Prepared && to.state == Approved && to.fence == from.fence
    case AmbiguousEvent => from.state == Approved && to.state == Ambiguous && to.fence == from.fence
    case CommittedEvent =>
      (from.state == Approved || from.state == Ambiguous) && to.state == Committed && to.fence == from.fence
    case CompensatedEvent =>
      (from.state == Committed || from.state == Ambiguous) && to.state == Compensated && to.fence == from.fence
    case AbortedEvent =>
      && (from.state == Proposed || from.state == Prepared || from.state == Approved)
      && to.state == Aborted && to.fence == from.fence
  }

  ghost predicate Start(e: OutboxEvent) {
    e.kind == ProposedEvent && e.state == Proposed && e.fence == 0
  }

  /** A path of the automaton from the proposal. */
  ghost predicate Path(events: seq<OutboxEvent>) {
    && events != []
    && if |events| == 1 then Start(events[0]) else
       Path(events[..|events| - 1]) && Edge(events[|events| - 2], events[|events| - 1])
  }

  /** The outbox tells the life of the intent up to its present row. */
  ghost predicate Told(outbox: seq<OutboxEvent>, intent: Intent) {
    var path := PathOf(outbox, intent.op.id);
    && Path(path)
    && path[|path| - 1].state == intent.state && path[|path| - 1].fence == intent.fence
  }

  // ---------------------------------------------------------------- the invariant

  /** A stored grant with exact scope, authentic signature and nonempty validity. */
  ghost predicate Authorized(db: Database, intent: Intent) {
    && intent.grant.Some? && intent.grant.value in db.grants
    && var g := db.grants[intent.grant.value];
    && g.claims.grantId == intent.grant.value
    && ExactScope(intent.op, g)
    && g.signature.claims == g.claims
    && g.claims.principal != "" && g.claims.notBefore < g.claims.expires
  }

  ghost predicate PastPreparation(s: EffectState) {
    s == Approved || s == Ambiguous || s == Committed || s == Compensated
  }

  /** How the state of the row relates to the target. */
  ghost predicate Reflects(t: Target, intent: Intent) {
    var key := intent.op.key;
    && ((intent.state == Proposed || intent.state == Prepared) ==> key !in t.applications)
    && (intent.state == Committed || intent.state == Ambiguous || intent.state == Compensated ==>
      key in t.applications)
    && (key in t.crashed ==> key in t.applications)
    && (intent.state == Approved || intent.state == Aborted ==> (key in t.applications <==> key in t.crashed))
    && (key in t.applications ==> Matches(t.applications[key], intent.op))
    && Count(t.log, key) == (if key in t.applications then 1 else 0)
    && (key in t.compensated <==> intent.state == Compensated)
    && CountKeys(t.compensations, key) == (if intent.state == Compensated then 1 else 0)
    && Highest(t, intent.op.id) <= intent.fence
  }

  ghost predicate FenceShape(intent: Intent) {
    && (intent.state == Proposed ==> intent.fence == 0 && intent.owner.None?)
    && (intent.state != Proposed && intent.state != Aborted ==> 0 < intent.fence && intent.owner.Some?)
    && (intent.state == Compensated ==> intent.op.class_ == ReversibleWrite)
  }

  /** An irreversible intent has its grant as soon as it is approved or applied, and no other intent names one. */
  ghost predicate Granted(w: World, intent: Intent) {
    && (intent.op.class_ == IrreversibleWrite ==>
      PastPreparation(intent.state) || intent.op.key in w.target.applications ==> intent.grant.Some?)
    && (intent.grant.Some? ==> intent.op.class_ == IrreversibleWrite && Authorized(w.db, intent))
  }

  /** Every application of an irreversible intent was made inside its grant's validity interval. */
  ghost predicate InWindow(w: World, intent: Intent) {
    intent.op.class_ == IrreversibleWrite ==>
      forall i :: 0 <= i < |w.target.log| && w.target.log[i].key == intent.op.key ==>
        Authorized(w.db, intent) &&
        var g := w.db.grants[intent.grant.value]; g.claims.notBefore <= w.target.log[i].at < g.claims.expires
  }

  ghost predicate RowHolds(w: World, id: string)
    requires id in w.db.intents
  {
    var intent := w.db.intents[id];
    && intent.op.id == id
    && intent.op.key in w.db.keys && w.db.keys[intent.op.key] == id
    && FenceShape(intent)
    && Reflects(w.target, intent)
    && Granted(w, intent)
    && InWindow(w, intent)
    && Told(w.db.outbox, intent)
  }

  /** Every key, application, fence, grant and event belongs to a known intent. */
  ghost predicate Closed(w: World) {
    && (forall k :: k in w.db.keys ==> w.db.keys[k] in w.db.intents && w.db.intents[w.db.keys[k]].op.key == k)
    && w.target.applications.Keys <= w.db.keys.Keys
    && w.target.compensated <= w.db.keys.Keys
    && w.target.crashed <= w.target.applications.Keys
    && (forall i :: 0 <= i < |w.target.log| ==> w.target.log[i].key in w.db.keys)
    && (forall i :: 0 <= i < |w.target.compensations| ==> w.target.compensations[i] in w.db.keys)
    && w.target.highest.Keys <= w.db.intents.Keys
    && (forall g :: g in w.db.grants ==>
      w.db.grants[g].claims.grantId == g && w.db.grants[g].claims.intentId in w.db.intents)
    && (forall i :: 0 <= i < |w.db.outbox| ==> w.db.outbox[i].intent in w.db.intents)
  }

  ghost predicate Inv(w: World) {
    Closed(w) && forall id :: id in w.db.intents ==> RowHolds(w, id)
  }

  lemma RowStands(w: World, id: string)
    requires Inv(w) && id in w.db.intents
    ensures RowHolds(w, id)
  {
  }

  // ---------------------------------------------------------------- what verification accepts

  /** An authority whose key the broker trusts issued the grant for exactly this operation. */
  ghost predicate IssuedFor(b: Broker, op: Operation, g: Grant) {
    && g.claims.keyId in b.keys
    && exists principal, at: nat, ttl: nat ::
      && principal != "" && ttl > 0
      && g == Issued(g.claims.keyId, b.keys[g.claims.keyId], op, principal, at, ttl, g.claims.grantId,
                     op.resource, op.action)
  }

  /** Verification accepts exactly what such an authority issues, inside its interval when time counts. */
  lemma VerifiedIffIssued(b: Broker, op: Operation, g: Grant, enforceTime: bool, now: nat)
    ensures GrantVerifies(b, op, g, enforceTime, now) <==>
      IssuedFor(b, op, g) && (enforceTime ==> g.claims.notBefore <= now < g.claims.expires)
  {
    if GrantVerifies(b, op, g, enforceTime, now) {
      var c := g.claims;
      var ttl: nat := c.expires - c.notBefore;
      assert g == Issued(c.keyId, b.keys[c.keyId], op, c.principal, c.notBefore, ttl, c.grantId,
                         op.resource, op.action);
    }
  }

  /** A correctly signed grant for another resource or action, or one signed with another secret, is refused. */
  lemma OverriddenScopeIsRefused(b: Broker, op: Operation, keyId: string, secret: string, principal: string, at: nat,
      ttl: nat, grantId: string, resource: string, action: string, now: nat)
    requires resource != op.resource || action != op.action || keyId !in b.keys || b.keys[keyId] != secret
    ensures !GrantVerifies(b, op, Issued(keyId, secret, op, principal, at, ttl, grantId, resource, action), false, now)
  {
  }

  // ---------------------------------------------------------------- frames

  lemma CountAppend(log: seq<Applied>, a: Applied, key: string)
    ensures Count(log + [a], key) == Count(log, key) + if a.key == key then 1 else 0
  {
    assert (log + [a])[..|log|] == log;
  }

  lemma CountKeysAppend(keys: seq<string>, k: string, key: string)
    ensures CountKeys(keys + [k], key) == CountKeys(keys, key) + if k == key then 1 else 0
  {
    assert (keys + [k])[..|keys|] == keys;
  }

  lemma PathAppend(outbox: seq<OutboxEvent>, e: OutboxEvent, id: string)
    ensures PathOf(outbox + [e], id) == if e.intent == id then PathOf(outbox, id) + [e] else PathOf(outbox, id)
  {
    assert (outbox + [e])[..|outbox|] == outbox;
  }

  /** Between the two targets only the entries of one key and one intent differ. */
  ghost predicate Elsewhere(t: Target, t': Target, key: string, id: string) {
    && t.applications - {key} == t'.applications - {key}
    && t.compensated - {key} == t'.compensated - {key}
    && t.crashed - {key} == t'.crashed - {key}
    && t.highest - {id} == t'.highest - {id}
    && (t'.log == t.log || exists a: Applied :: a.key == key && t'.log == t.log + [a])
    && (t'.compensations == t.compensations || t'.compensations == t.compensations + [key])
  }

  /** Grants are only ever added, and only for the intent of the step. */
  ghost predicate GrantsGrow(db: Database, db': Database, id: string) {
    && (forall g :: g in db.grants ==> g in db'.grants && db'.grants[g] == db.grants[g])
    && (forall g :: g in db'.grants && g !in db.grants ==>
      db'.grants[g].claims.grantId == g && db'.grants[g].claims.intentId == id)
  }

  lemma ReflectsElsewhere(t: Target, t': Target, key: string, id: string, other: Intent)
    requires Elsewhere(t, t', key, id) && other.op.key != key && other.op.id != id && Reflects(t, other)
    ensures Reflects(t', other)
  {
    var k := other.op.key;
    assert k in t.applications <==> k in t'.applications by {
      assert k in t.applications - {key} <==> k in t'.applications - {key};
    }
    assert k in t.applications ==> (t.applications - {key})[k] == (t'.applications - {key})[k];
    assert k in t.compensated <==> k in t'.compensated by {
      assert k in t.compensated - {key} <==> k in t'.compensated - {key};
    }
    assert k in t.crashed <==> k in t'.crashed by {
      assert k in t.crashed - {key} <==> k in t'.crashed - {key};
    }
    CountElsewhere(t, t', key, id, k);
    HighestElsewhere(t, t', key, id, other.op.id);
  }

  lemma CountElsewhere(t: Target, t': Target, key: string, id: string, k: string)
    requires Elsewhere(t, t', key, id) && k != key
    ensures Count(t'.log, k) == Count(t.log, k)
    ensures CountKeys(t'.compensations, k) == CountKeys(t.compensations, k)
  {
    if t'.log != t.log {
      var a: Applied :| a.key == key && t'.log == t.log + [a];
      CountAppend(t.log, a, k);
    }
    CountKeysAppend(t.compensations, key, k);
  }

  lemma HighestElsewhere(t: Target, t': Target, key: string, id: string, j: string)
    requires Elsewhere(t, t', key, id) && j != id
    ensures Highest(t', j) == Highest(t, j)
  {
    assert j in t.highest - {id} <==> j in t'.highest - {id};
    assert j in t.highest ==> (t.highest - {id})[j] == (t'.highest - {id})[j];
  }

  lemma AuthorizedGrows(db: Database, db': Database, id: string, other: Intent)
    requires GrantsGrow(db, db', id) && Authorized(db, other)
    ensures Authorized(db', other) && db'.grants[other.grant.value] == db.grants[other.grant.value]
  {
  }

  lemma InWindowElsewhere(w: World, w': World, key: string, id: string, other: Intent)
    requires Elsewhere(w.target, w'.target, key, id) && GrantsGrow(w.db, w'.db, id)
    requires other.op.key != key && InWindow(w, other)
    ensures InWindow(w', other)
  {
    if other.op.class_ == IrreversibleWrite {
      forall i | 0 <= i < |w'.target.log| && w'.target.log[i].key == other.op.key
        ensures Authorized(w'.db, other)
        ensures var g := w'.db.grants[other.grant.value]; g.claims.notBefore <= w'.target.log[i].at < g.claims.expires
      {
        assert i < |w.target.log| && w'.target.log[i] == w.target.log[i];
        AuthorizedGrows(w.db, w'.db, id, other);
      }
    }
  }

  lemma GrantedElsewhere(w: World, w': World, key: string, id: string, other: Intent)
    requires Elsewhere(w.target, w'.target, key, id) && GrantsGrow(w.db, w'.db, id)
    requires other.op.key != key && Granted(w, other)
    ensures Granted(w', other)
  {
    var k := other.op.key;
    assert k in w.target.applications - {key} <==> k in w'.target.applications - {key};
    if Authorized(w.db, other) {
      AuthorizedGrows(w.db, w'.db, id, other);
    }
  }

  /** A step for one intent leaves every other row as it was. */
  lemma RowElsewhere(w: World, w': World, key: string, id: string, j: string)
    requires j in w.db.intents && RowHolds(w, j) && w.db.intents[j].op.key != key && j != id
    requires j in w'.db.intents && w'.db.intents[j] == w.db.intents[j]
    requires w.db.intents[j].op.key in w'.db.keys && w'.db.keys[w.db.intents[j].op.key] == j
    requires Elsewhere(w.target, w'.target, key, id) && GrantsGrow(w.db, w'.db, id)
    requires PathOf(w'.db.outbox, j) == PathOf(w.db.outbox, j)
    ensures RowHolds(w', j)
  {
    var other := w.db.intents[j];
    ReflectsElsewhere(w.target, w'.target, key, id, other);
    GrantedElsewhere(w, w', key, id, other);
    InWindowElsewhere(w, w', key, id, other);
  }

  // ---------------------------------------------------------------- one row written

  lemma ToldStep(outbox: seq<OutboxEvent>, row: Intent, next: Intent, kind: EventKind)
    requires Told(outbox, row) && next.op == row.op
    requires Edge(OutboxEvent(row.op.id, kind, row.state, row.fence),
      OutboxEvent(row.op.id, kind, next.state, next.fence))
    ensures Told(outbox + [OutboxEvent(row.op.id, kind, next.state, next.fence)], next)
  {
    var e := OutboxEvent(row.op.id, kind, next.state, next.fence);
    var path := PathOf(outbox, row.op.id);
    PathAppend(outbox, e, row.op.id);
    assert Edge(path[|path| - 1], e);
    assert (path + [e])[..|path|] == path;
  }

  ghost predicate TargetClosed(t: Target, t': Target, key: string, id: string) {
    && t'.applications.Keys <= t.applications.Keys + {key}
    && t'.compensated <= t.compensated + {key}
    && t'.crashed <= t.crashed + t'.applications.Keys
    && t.applications.Keys <= t'.applications.Keys
    && t'.highest.Keys <= t.highest.Keys + {id}
  }

  /** `w'` is `w` after a transaction that wrote `next` over the row of the same intent. */
  ghost predicate Rewrites(w: World, w': World, next: Intent, kind: EventKind) {
    var id := next.op.id;
    && id in w.db.intents && w.db.intents[id].op == next.op
    && w'.db.intents == w.db.intents[id := next]
    && w'.db.keys == w.db.keys
    && GrantsGrow(w.db, w'.db, id)
    && w'.db.outbox == w.db.outbox + [OutboxEvent(id, kind, next.state, next.fence)]
    && Elsewhere(w.target, w'.target, next.op.key, id)
    && TargetClosed(w.target, w'.target, next.op.key, id)
  }

  lemma RewriteKeepsClosed(w: World, w': World, next: Intent, kind: EventKind)
    requires Closed(w) && Rewrites(w, w', next, kind) && next.op.key in w.db.keys
    ensures Closed(w')
  {
  }

  /** The written row is again sound, and its event is an edge of the automaton. */
  ghost predicate Moves(w: World, w': World, next: Intent, kind: EventKind) {
    && Rewrites(w, w', next, kind)
    && FenceShape(next) && Reflects(w'.target, next) && Granted(w', next) && InWindow(w', next)
    && var row := w.db.intents[next.op.id];
       Edge(OutboxEvent(next.op.id, kind, row.state, row.fence), OutboxEvent(next.op.id, kind, next.state, next.fence))
  }

  lemma MovedRowHolds(w: World, w': World, next: Intent, kind: EventKind)
    requires Moves(w, w', next, kind) && RowHolds(w, next.op.id)
    ensures RowHolds(w', next.op.id)
  {
    ToldStep(w.db.outbox, w.db.intents[next.op.id], next, kind);
  }

  lemma MoveSparesOthers(w: World, w': World, next: Intent, kind: EventKind, j: string)
    requires Rewrites(w, w', next, kind) && j in w.db.intents && RowHolds(w, j) && j != next.op.id
    requires w.db.intents[j].op.key != next.op.key
    ensures j in w'.db.intents && RowHolds(w', j)
  {
    PathAppend(w.db.outbox, OutboxEvent(next.op.id, kind, next.state, next.fence), j);
    RowElsewhere(w, w', next.op.key, next.op.id, j);
  }

  lemma KeysDiffer(w: World, id: string, j: string)
    requires id in w.db.intents && j in w.db.intents && RowHolds(w, id) && RowHolds(w, j) && id != j
    ensures w.db.intents[id].op.key != w.db.intents[j].op.key
  {
  }

  lemma MoveKeepsInv(w: World, w': World, next: Intent, kind: EventKind)
    requires Inv(w) && Moves(w, w', next, kind)
    ensures Inv(w')
  {
    var id := next.op.id;
    assert RowHolds(w, id);
    RewriteKeepsClosed(w, w', next, kind);
    forall j | j in w'.db.intents
      ensures RowHolds(w', j)
    {
      assert RowHolds(w, j);
      if j == id {
        MovedRowHolds(w, w', next, kind);
      } else {
        KeysDiffer(w, id, j);
        MoveSparesOthers(w, w', next, kind, j);
      }
    }
  }

  /** A transaction that leaves the target and the grants alone. */
  lemma WriteMoves(w: World, next: Intent, kind: EventKind)
    requires next.op.id in w.db.intents && RowHolds(w, next.op.id)
    requires var row := w.db.intents[next.op.id];
             && row.op == next.op && row.grant == next.grant
             && Edge(OutboxEvent(next.op.id, kind, row.state, row.fence),
               OutboxEvent(next.op.id, kind, next.state, next.fence))
    requires FenceShape(next) && Reflects(w.target, next) && Granted(w, next)
    ensures Moves(w, w.(db := Written(w.db, next, kind)), next, kind)
  {
  }

  /** The process died inside the transaction: the target moved and the rows did not. */
  ghost predicate Dies(w: World, w': World, id: string) {
    && id in w.db.intents && w'.db == w.db
    && var row := w.db.intents[id];
    && Elsewhere(w.target, w'.target, row.op.key, id) && TargetClosed(w.target, w'.target, row.op.key, id)
    && Reflects(w'.target, row) && Granted(w', row) && InWindow(w', row)
  }

  lemma DeathSparesOthers(w: World, w': World, id: string, j: string)
    requires Dies(w, w', id) && j in w.db.intents && RowHolds(w, j) && j != id
    requires w.db.intents[j].op.key != w.db.intents[id].op.key
    ensures RowHolds(w', j)
  {
    RowElsewhere(w, w', w.db.intents[id].op.key, id, j);
  }

  lemma DeadRowHolds(w: World, w': World, id: string)
    requires Dies(w, w', id) && RowHolds(w, id)
    ensures RowHolds(w', id)
  {
  }

  lemma TargetKeepsClosed(w: World, w': World, key: string, id: string)
    requires Closed(w) && w'.db == w.db && key in w.db.keys && id in w.db.intents
    requires Elsewhere(w.target, w'.target, key, id) && TargetClosed(w.target, w'.target, key, id)
    ensures Closed(w')
  {
  }

  lemma DeathKeepsInv(w: World, w': World, id: string)
    requires Inv(w) && Dies(w, w', id)
    ensures Inv(w')
  {
    assert RowHolds(w, id);
    TargetKeepsClosed(w, w', w.db.intents[id].op.key, id);
    forall j | j in w'.db.intents
      ensures RowHolds(w', j)
    {
      assert RowHolds(w, j);
      if j == id {
        DeadRowHolds(w, w', id);
      } else {
        KeysDiffer(w, id, j);
        DeathSparesOthers(w, w', id, j);
      }
    }
  }

  // ---------------------------------------------------------------- the steps

  /** `w'` is `w` with a row for a key that no row had. */
  ghost predicate Inserts(w: World, w': World, next: Intent) {
    && next.op.key !in w.db.keys && next.op.id !in w.db.intents
    && next == Intent(next.op, Proposed, 0, None, None)
    && w' == w.(db := Written(w.db, next, ProposedEvent).(keys := w.db.keys[next.op.key := next.op.id]))
  }

  lemma InsertedRowHolds(w: World, w': World, next: Intent)
    requires Inserts(w, w', next) && Closed(w)
    ensures RowHolds(w', next.op.id)
  {
    NothingCounted(w, next.op);
    PathAppend(w.db.outbox, OutboxEvent(next.op.id, ProposedEvent, Proposed, 0), next.op.id);
    NoPath(w.db.outbox, next.op.id);
    NoCount(w.target.log, next.op.key);
  }

  lemma InsertSparesOthers(w: World, w': World, next: Intent, j: string)
    requires Inserts(w, w', next) && j in w.db.intents && RowHolds(w, j)
    ensures RowHolds(w', j)
  {
    PathAppend(w.db.outbox, OutboxEvent(next.op.id, ProposedEvent, Proposed, 0), j);
    RowElsewhere(w, w', next.op.key, next.op.id, j);
  }

  lemma InsertKeepsClosed(w: World, w': World, next: Intent)
    requires Inserts(w, w', next) && Closed(w)
    ensures Closed(w')
  {
  }

  lemma InsertKeepsInv(w: World, w': World, next: Intent)
    requires Inv(w) && Inserts(w, w', next)
    ensures Inv(w')
  {
    InsertKeepsClosed(w, w', next);
    InsertedRowHolds(w, w', next);
    forall j | j in w.db.intents
      ensures RowHolds(w', j)
    {
      assert RowHolds(w, j);
      InsertSparesOthers(w, w', next, j);
    }
  }

  lemma ProposeKeepsInv(w: World, op: Operation, w': World)
    requires Inv(w) && w' == Propose(w, op).0
    ensures Inv(w')
  {
    if w' != w {
      InsertKeepsInv(w, w', Intent(op, Proposed, 0, None, None));
    }
  }

  lemma NoPath(outbox: seq<OutboxEvent>, id: string)
    requires forall i :: 0 <= i < |outbox| ==> outbox[i].intent != id
    ensures PathOf(outbox, id) == []
  {
    if outbox != [] {
      NoPath(outbox[..|outbox| - 1], id);
    }
  }

  lemma NoCount(log: seq<Applied>, key: string)
    ensures Count(log, key) == 0 <==> forall i :: 0 <= i < |log| ==> log[i].key != key
  {
    if log != [] {
      NoCount(log[..|log| - 1], key);
      assert log == log[..|log| - 1] + [log[|log| - 1]];
    }
  }

  lemma NoCountKeys(keys: seq<string>, key: string)
    requires forall i :: 0 <= i < |keys| ==> keys[i] != key
    ensures CountKeys(keys, key) == 0
  {
    if keys != [] {
      NoCountKeys(keys[..|keys| - 1], key);
    }
  }

  lemma NothingCounted(w: World, op: Operation)
    requires Closed(w) && op.key !in w.db.keys
    ensures Count(w.target.log, op.key) == 0 && CountKeys(w.target.compensations, op.key) == 0
  {
    NoCount(w.target.log, op.key);
    NoCountKeys(w.target.compensations, op.key);
  }

  lemma PreparedRowKeepsInv(w: World, id: string, intent: Intent, next: Intent, w': World)
    requires Inv(w) && id in w.db.intents && intent == w.db.intents[id] && intent.state == Proposed
    requires next.op == intent.op && next.grant == intent.grant
    requires next.state == Prepared && next.fence == intent.fence + 1 && next.owner.Some?
    requires w' == w.(db := Written(w.db, next, PreparedEvent))
    ensures Inv(w')
  {
    RowStands(w, id);
    WriteMoves(w, next, PreparedEvent);
    MoveKeepsInv(w, w', next, PreparedEvent);
  }

  lemma PrepareKeepsInv(w: World, b: Broker, id: string, w': World)
    requires Inv(w) && w' == Prepare(w, b, id).0
    ensures Inv(w')
  {
    if w' != w {
      var intent := w.db.intents[id];
      var next := intent.(state := Prepared, fence := intent.fence + 1, owner := Some(b.id));
      PreparedRowKeepsInv(w, id, intent, next, w');
    }
  }

  ghost predicate Fenceable(s: EffectState) {
    s == Prepared || s == Approved || s == Ambiguous
  }

  lemma FencedRowKeepsInv(w: World, id: string, intent: Intent, next: Intent, w': World)
    requires Inv(w) && id in w.db.intents && intent == w.db.intents[id] && Fenceable(intent.state)
    requires next.op == intent.op && next.grant == intent.grant
    requires next.state == intent.state && next.fence == intent.fence + 1 && next.owner.Some?
    requires w' == w.(db := Written(w.db, next, FenceEvent))
    ensures Inv(w')
  {
    RowStands(w, id);
    WriteMoves(w, next, FenceEvent);
    MoveKeepsInv(w, w', next, FenceEvent);
  }

  lemma FenceKeepsInv(w: World, b: Broker, id: string, w': World)
    requires Inv(w) && w' == AcquireFence(w, b, id).0
    ensures Inv(w')
  {
    if id in w.db.intents && Fenceable(w.db.intents[id].state) {
      var intent := w.db.intents[id];
      FencedRowKeepsInv(w, id, intent, intent.(fence := intent.fence + 1, owner := Some(b.id)), w');
    }
  }

  lemma PolicyRowKeepsInv(w: World, id: string, intent: Intent, next: Intent, w': World)
    requires Inv(w) && id in w.db.intents && intent == w.db.intents[id] && intent.state == Prepared
    requires next == intent.(state := Approved) && intent.op.class_ != IrreversibleWrite
    requires w' == w.(db := Written(w.db, next, ApprovedEvent))
    ensures Inv(w')
  {
    RowStands(w, id);
    WriteMoves(w, next, ApprovedEvent);
    MoveKeepsInv(w, w', next, ApprovedEvent);
  }

  lemma GrantMoves(w: World, b: Broker, intent: Intent, g: Grant, now: nat, next: Intent, w': World)
    requires intent.op.id in w.db.intents && RowHolds(w, intent.op.id) && intent == w.db.intents[intent.op.id]
    requires intent.state == Prepared && intent.op.class_ == IrreversibleWrite
    requires GrantVerifies(b, intent.op, g, true, now) && GrantIsFree(w.db, g)
    requires next == intent.(state := Approved, grant := Some(g.claims.grantId))
    requires w' == w.(db := Written(w.db.(grants := w.db.grants[g.claims.grantId := g]), next, ApprovedEvent))
    ensures Moves(w, w', next, ApprovedEvent)
  {
    NoCount(w.target.log, intent.op.key);
  }

  lemma GrantedRowKeepsInv(w: World, b: Broker, id: string, intent: Intent, g: Grant, now: nat, next: Intent, w': World)
    requires Inv(w) && id in w.db.intents && intent == w.db.intents[id]
    requires intent.state == Prepared && intent.op.class_ == IrreversibleWrite
    requires GrantVerifies(b, intent.op, g, true, now) && GrantIsFree(w.db, g)
    requires next == intent.(state := Approved, grant := Some(g.claims.grantId))
    requires w' == w.(db := Written(w.db.(grants := w.db.grants[g.claims.grantId := g]), next, ApprovedEvent))
    ensures Inv(w')
  {
    RowStands(w, id);
    GrantMoves(w, b, intent, g, now, next, w');
    MoveKeepsInv(w, w', next, ApprovedEvent);
  }

  lemma ApproveKeepsInv(w: World, b: Broker, id: string, token: Token, grant: Option<Grant>, now: nat, w': World)
    requires Inv(w) && w' == Approve(w, b, id, token, grant, now).0
    ensures Inv(w')
  {
    if w' != w {
      var intent := w.db.intents[id];
      if intent.op.class_ == IrreversibleWrite {
        var next := intent.(state := Approved, grant := Some(grant.value.claims.grantId));
        GrantedRowKeepsInv(w, b, id, intent, grant.value, now, next, w');
      } else {
        PolicyRowKeepsInv(w, id, intent, intent.(state := Approved), w');
      }
    }
  }

  lemma AbortedRowKeepsInv(w: World, id: string, intent: Intent, next: Intent, w': World)
    requires Inv(w) && id in w.db.intents && intent == w.db.intents[id]
    requires intent.state == Proposed || intent.state == Prepared || intent.state == Approved
    requires next == intent.(state := Aborted) && w' == w.(db := Written(w.db, next, AbortedEvent))
    ensures Inv(w')
  {
    RowStands(w, id);
    WriteMoves(w, next, AbortedEvent);
    MoveKeepsInv(w, w', next, AbortedEvent);
  }

  lemma AbortKeepsInv(w: World, id: string, token: Option<Token>, w': World)
    requires Inv(w) && w' == Abort(w, id, token).0
    ensures Inv(w')
  {
    if w' != w {
      AbortedRowKeepsInv(w, id, w.db.intents[id], w.db.intents[id].(state := Aborted), w');
    }
  }

  /** What the target does for a row that can be undone. */
  lemma UndoReflects(t: Target, intent: Intent, version: nat)
    requires Reflects(t, intent) && FenceShape(intent) && (intent.state == Committed || intent.state == Ambiguous)
    requires version == intent.fence && intent.op.class_ == ReversibleWrite
    ensures var (t', undo) := CompensateAtTarget(t, intent.op, version);
      && undo == Undone && t'.log == t.log && t'.applications == t.applications
      && Elsewhere(t, t', intent.op.key, intent.op.id) && TargetClosed(t, t', intent.op.key, intent.op.id)
      && Reflects(t', intent.(state := Compensated))
  {
    CountKeysAppend(t.compensations, intent.op.key, intent.op.key);
  }

  lemma UndoMoves(w: World, id: string, intent: Intent, t: Target, next: Intent, w': World)
    requires id in w.db.intents && RowHolds(w, id) && intent == w.db.intents[id]
    requires intent.state == Committed || intent.state == Ambiguous
    requires next == intent.(state := Compensated) && next.op.class_ == ReversibleWrite && Reflects(t, next)
    requires Elsewhere(w.target, t, intent.op.key, id) && TargetClosed(w.target, t, intent.op.key, id)
    requires w' == World(Written(w.db, next, CompensatedEvent), t)
    ensures Moves(w, w', next, CompensatedEvent)
  {
  }

  lemma CompensateKeepsInv(w: World, id: string, token: Token, w': World)
    requires Inv(w) && w' == Compensate(w, id, token).0
    ensures Inv(w')
  {
    if w' != w {
      var intent := w.db.intents[id];
      RowStands(w, id);
      var next := intent.(state := Compensated);
      UndoReflects(w.target, intent, token.version);
      UndoMoves(w, id, intent, CompensateAtTarget(w.target, intent.op, token.version).0, next, w');
      MoveKeepsInv(w, w', next, CompensatedEvent);
    }
  }

  // ---------------------------------------------------------------- the commit

  /** What the target does for an approved row: it neither fences nor refuses. */
  lemma ExecuteReflects(t: Target, intent: Intent, version: nat, now: nat)
    requires Reflects(t, intent) && intent.state == Approved && version == intent.fence
    ensures var (t', execution) := Execute(t, intent.op, version, now);
      && (execution == Replayed || execution == AppliedNow || execution == SoftFault || execution == HardCrash)
      && Elsewhere(t, t', intent.op.key, intent.op.id) && TargetClosed(t, t', intent.op.key, intent.op.id)
      && (execution == HardCrash ==> Reflects(t', intent))
      && (execution == SoftFault ==> Reflects(t', intent.(state := Ambiguous)))
      && (execution == AppliedNow || execution == Replayed ==> Reflects(t', intent.(state := Committed)))
      && (t'.log == t.log || t'.log == t.log + [Applied(intent.op.key, intent.op.id, now)])
  {
    CountAppend(t.log, Applied(intent.op.key, intent.op.id, now), intent.op.key);
  }

  /** The grant of an irreversible intent that may be applied at time `now`. */
  ghost predicate Licensed(w: World, intent: Intent, now: nat) {
    intent.op.class_ == IrreversibleWrite ==>
      Authorized(w.db, intent) &&
      (var g := w.db.grants[intent.grant.value]; g.claims.notBefore <= now < g.claims.expires)
  }

  lemma AttemptInWindow(w: World, w': World, intent: Intent, next: Intent, now: nat)
    requires InWindow(w, intent) && Granted(w, intent) && Licensed(w, intent, now)
    requires w'.db.grants == w.db.grants && next.op == intent.op && next.grant == intent.grant
    requires w'.target.log == w.target.log
      || w'.target.log == w.target.log + [Applied(intent.op.key, intent.op.id, now)]
    ensures InWindow(w', next) && Granted(w', next)
  {
  }

  lemma AttemptMoves(w: World, intent: Intent, now: nat, t: Target, next: Intent, kind: EventKind, w': World)
    requires intent.op.id in w.db.intents && RowHolds(w, intent.op.id) && intent == w.db.intents[intent.op.id]
    requires intent.state == Approved && Licensed(w, intent, now)
    requires Elsewhere(w.target, t, intent.op.key, intent.op.id)
    requires TargetClosed(w.target, t, intent.op.key, intent.op.id)
    requires t.log == w.target.log || t.log == w.target.log + [Applied(intent.op.key, intent.op.id, now)]
    requires
      || (kind == AmbiguousEvent && next == intent.(state := Ambiguous))
      || (kind == CommittedEvent && next == intent.(state := Committed))
    requires Reflects(t, next) && w' == World(Written(w.db, next, kind), t)
    ensures Moves(w, w', next, kind)
  {
    AttemptInWindow(w, w', intent, next, now);
  }

  lemma AttemptDies(w: World, intent: Intent, now: nat, t: Target, w': World)
    requires intent.op.id in w.db.intents && RowHolds(w, intent.op.id) && intent == w.db.intents[intent.op.id]
    requires Licensed(w, intent, now)
    requires Elsewhere(w.target, t, intent.op.key, intent.op.id)
    requires TargetClosed(w.target, t, intent.op.key, intent.op.id)
    requires t.log == w.target.log || t.log == w.target.log + [Applied(intent.op.key, intent.op.id, now)]
    requires Reflects(t, intent) && w' == w.(target := t)
    ensures Dies(w, w', intent.op.id)
  {
    AttemptInWindow(w, w', intent, intent, now);
  }

  /** The world an attempt ends in, by what the target did. */
  lemma AttemptCases(w: World, intent: Intent, token: Token, now: nat, t: Target, execution: Execution)
    requires (t, execution) == Execute(w.target, intent.op, token.version, now)
    requires execution != Fenced && execution != Conflict
    ensures Attempted(w, intent, token, now).0 ==
            if execution == HardCrash then w.(target := t)
            else if execution == SoftFault then World(Written(w.db, intent.(state := Ambiguous), AmbiguousEvent), t)
            else World(Written(w.db, intent.(state := Committed), CommittedEvent), t)
  {
  }

  lemma AttemptKeepsInv(w: World, intent: Intent, token: Token, now: nat, w': World)
    requires Inv(w) && intent.op.id in w.db.intents && intent == w.db.intents[intent.op.id]
    requires intent.state == Approved && HoldsFence(intent, token) && Licensed(w, intent, now)
    requires w' == Attempted(w, intent, token, now).0
    ensures Inv(w')
  {
    RowStands(w, intent.op.id);
    var (t, execution) := Execute(w.target, intent.op, token.version, now);
    ExecuteReflects(w.target, intent, token.version, now);
    AttemptCases(w, intent, token, now, t, execution);
    if execution == HardCrash {
      AttemptDies(w, intent, now, t, w');
      DeathKeepsInv(w, w', intent.op.id);
    } else {
      var next, kind := if execution == SoftFault then intent.(state := Ambiguous) else intent.(state := Committed),
        if execution == SoftFault then AmbiguousEvent else CommittedEvent;
      AttemptMoves(w, intent, now, t, next, kind, w');
      MoveKeepsInv(w, w', next, kind);
    }
  }

  lemma ReconcileMoves(w: World, id: string, intent: Intent, next: Intent)
    requires id in w.db.intents && RowHolds(w, id) && intent == w.db.intents[id] && intent.state == Ambiguous
    requires next == intent.(state := Committed)
    ensures Moves(w, w.(db := Written(w.db, next, CommittedEvent)), next, CommittedEvent)
  {
    WriteMoves(w, next, CommittedEvent);
  }

  /** Which calls of the target a commit makes, and with what authority. */
  lemma CommitCases(w: World, b: Broker, id: string, intent: Intent, token: Token, now: nat)
    requires id in w.db.intents && RowHolds(w, id) && intent == w.db.intents[id]
    ensures var w' := Commit(w, b, id, token, now).0;
      || w' == w
      || (intent.state == Approved && HoldsFence(intent, token) && Licensed(w, intent, now)
          && w' == Attempted(w, intent, token, now).0)
      || (intent.state == Ambiguous && w' == w.(db := Written(w.db, intent.(state := Committed), CommittedEvent)))
  {
  }

  lemma CommitKeepsInv(w: World, b: Broker, id: string, token: Token, now: nat, w': World)
    requires Inv(w) && w' == Commit(w, b, id, token, now).0
    ensures Inv(w')
  {
    if id in w.db.intents {
      var intent := w.db.intents[id];
      RowStands(w, id);
      CommitCases(w, b, id, intent, token, now);
      if w' == w {
      } else if intent.state == Approved {
        AttemptKeepsInv(w, intent, token, now, w');
      } else {
        ReconcileMoves(w, id, intent, intent.(state := Committed));
        MoveKeepsInv(w, w', intent.(state := Committed), CommittedEvent);
      }
    }
  }

  lemma ArmingKeepsInv(w: World, w': World)
    requires Inv(w) && w'.db.(published := w.db.published) == w.db
    requires w'.target.(soft := w.target.soft, hard := w.target.hard) == w.target
    ensures Inv(w')
  {
    ArmingKeepsClosed(w, w');
    forall id | id in w'.db.intents
      ensures RowHolds(w', id)
    {
      RowStands(w, id);
      ArmingKeepsRow(w, w', id);
    }
  }

  lemma PublishKeepsInv(w: World, sequence: nat, w': World)
    requires Inv(w) && w' == Taken(w, Publish(sequence)).0
    ensures Inv(w')
  {
    ArmingKeepsInv(w, w');
  }

  lemma ArmingKeepsClosed(w: World, w': World)
    requires Closed(w) && w'.db.(published := w.db.published) == w.db
    requires w'.target.(soft := w.target.soft, hard := w.target.hard) == w.target
    ensures Closed(w')
  {
  }

  lemma ArmingKeepsRow(w: World, w': World, id: string)
    requires id in w.db.intents && RowHolds(w, id) && w'.db.(published := w.db.published) == w.db
    requires w'.target.(soft := w.target.soft, hard := w.target.hard) == w.target
    ensures id in w'.db.intents && RowHolds(w', id)
  {
    var intent := w.db.intents[id];
    assert Reflects(w'.target, intent);
    assert Granted(w', intent);
  }

  lemma StepKeepsInv(w: World, step: Step, w': World)
    requires Inv(w) && w' == Taken(w, step).0
    ensures Inv(w')
  {
    match step
    case ProposeStep(op) => ProposeKeepsInv(w, op, w');
    case PrepareStep(b, id) => PrepareKeepsInv(w, b, id, w');
    case FenceStep(b, id) => FenceKeepsInv(w, b, id, w');
    case ApproveStep(b, id, token, grant, now) => ApproveKeepsInv(w, b, id, token, grant, now, w');
    case CommitStep(b, id, token, now) => CommitKeepsInv(w, b, id, token, now, w');
    case CompensateStep(id, token) => CompensateKeepsInv(w, id, token, w');
    case AbortStep(id, token) => AbortKeepsInv(w, id, token, w');
    case _ => ArmingKeepsInv(w, w');
  }

  lemma {:induction false} InvAlways(steps: seq<Step>)
    ensures Inv(After(steps))
  {
    if steps != [] {
      InvAlways(steps[..|steps| - 1]);
      StepKeepsInv(After(steps[..|steps| - 1]), steps[|steps| - 1], After(steps));
    }
  }
}

/** What the effect kernel promises over whole runs. */
module EffectRuns {
  import opened Contracts
  import opened Effects
  import opened EffectSafety

  /** The row of an intent after a run. */
  ghost function Row(steps: seq<Step>, id: string): Intent
    requires id in After(steps).db.intents
  {
    After(steps).db.intents[id]
  }

  lemma RowIsSound(steps: seq<Step>, id: string)
    requires id in After(steps).db.intents
    ensures RowHolds(After(steps), id)
  {
    InvAlways(steps);
  }

  // ---------------------------------------------------------------- at most once

  lemma AppliedAtMostOnce(steps: seq<Step>, key: string)
    ensures Count(After(steps).target.log, key) <= 1 && CountKeys(After(steps).target.compensations, key) <= 1
  {
    InvAlways(steps);
    var w := After(steps);
    if key in w.db.keys {
      RowIsSound(steps, w.db.keys[key]);
    } else {
      NoCount(w.target.log, key);
      NoCountKeys(w.target.compensations, key);
    }
  }

  /** What the state of a row says of the target. */
  lemma StateTellsTarget(steps: seq<Step>, id: string)
    requires id in After(steps).db.intents
    ensures var w, row := After(steps), Row(steps, id);
      var applied := Count(w.target.log, row.op.key);
      && (row.state == Proposed || row.state == Prepared ==> applied == 0)
      && (row.state == Committed || row.state == Ambiguous || row.state == Compensated ==> applied == 1)
      && (row.state == Approved || row.state == Aborted ==> (applied == 1 <==> row.op.key in w.target.crashed))
      && (row.state == Compensated ==> row.op.class_ == ReversibleWrite)
      && CountKeys(w.target.compensations, row.op.key) == (if row.state == Compensated then 1 else 0)
  {
    RowIsSound(steps, id);
  }

  predicate Arms(step: Step, key: string) {
    step == ArmHard(key)
  }

  lemma UnarmedStep(w: World, step: Step, key: string)
    requires !Arms(step, key) && key !in w.target.hard && key !in w.target.crashed
    ensures key !in Taken(w, step).0.target.hard && key !in Taken(w, step).0.target.crashed
  {
  }

  lemma {:induction false} UnarmedNeverCrashes(steps: seq<Step>, key: string)
    requires forall i :: 0 <= i < |steps| ==> !Arms(steps[i], key)
    ensures key !in After(steps).target.hard && key !in After(steps).target.crashed
  {
    if steps != [] {
      UnarmedNeverCrashes(steps[..|steps| - 1], key);
      UnarmedStep(After(steps[..|steps| - 1]), steps[|steps| - 1], key);
    }
  }

  /** Without an armed process death an aborted or approved effect was never applied. */
  lemma AbortedIsUnapplied(steps: seq<Step>, id: string)
    requires id in After(steps).db.intents && (Row(steps, id).state == Aborted || Row(steps, id).state == Approved)
    requires forall i :: 0 <= i < |steps| ==> !Arms(steps[i], Row(steps, id).op.key)
    ensures Count(After(steps).target.log, Row(steps, id).op.key) == 0
  {
    var key := Row(steps, id).op.key;
    UnarmedNeverCrashes(steps, key);
    AppliedAtMostOnce(steps, key);
    StateTellsTarget(steps, id);
  }

  /** The converse failure: die after the target applied, then abort. */
  lemma DeathThenAbort(steps: seq<Step>, b: Broker, id: string, token: Token, now: nat)
    requires id in After(steps).db.intents && Row(steps, id).state == Approved && HoldsFence(Row(steps, id), token)
    requires Row(steps, id).op.class_ != IrreversibleWrite
    requires Row(steps, id).op.key in After(steps).target.hard
    requires Row(steps, id).op.key !in After(steps).target.applications
    ensures Taken(After(steps), CommitStep(b, id, token, now)).1 == Died
    ensures var run := steps + [CommitStep(b, id, token, now), AbortStep(id, Some(token))];
      && id in After(run).db.intents && Row(run, id).state == Aborted
      && Count(After(run).target.log, Row(run, id).op.key) == 1
  {
    var commit, abort := CommitStep(b, id, token, now), AbortStep(id, Some(token));
    var run := steps + [commit, abort];
    assert run == (steps + [commit]) + [abort];
    AfterSnoc(steps, commit);
    AfterSnoc(steps + [commit], abort);
    RowIsSound(steps, id);
    DiesThenAborts(After(steps), commit, abort, After(steps + [commit]), After(run));
    StateTellsTarget(run, id);
  }

  lemma DiesThenAborts(w: World, commit: Step, abort: Step, w1: World, w2: World)
    requires commit.CommitStep? && abort == AbortStep(commit.id, Some(commit.token))
    requires commit.id in w.db.intents && RowHolds(w, commit.id)
    requires var row := w.db.intents[commit.id];
      && row.state == Approved && HoldsFence(row, commit.token) && row.op.class_ != IrreversibleWrite
      && row.op.key in w.target.hard && row.op.key !in w.target.applications
    requires w1 == Taken(w, commit).0 && w2 == Taken(w1, abort).0
    ensures Taken(w, commit).1 == Died
    ensures commit.id in w2.db.intents && w2.db.intents[commit.id] == w.db.intents[commit.id].(state := Aborted)
    ensures w.db.intents[commit.id].op.key in w2.target.crashed
  {
    assert w1.db == w.db && w.db.intents[commit.id].op.key in w1.target.crashed;
  }

  /** A run up to an approved write whose next application kills the process. */
  function ArmedRun(op: Operation, b: Broker): seq<Step> {
    [ProposeStep(op), PrepareStep(b, op.id), ApproveStep(b, op.id, Token(op.id, 1, b.id), None, 0), ArmHard(op.key)]
  }

  lemma ArmedRunIsReady(op: Operation, b: Broker)
    requires op.runId != "" && op.action != "" && op.resource != "" && op.key != "" && op.class_ == IdempotentWrite
    ensures var w := After(ArmedRun(op, b));
      && op.id in w.db.intents && w.db.intents[op.id] == Intent(op, Approved, 1, Some(b.id), None)
      && op.key in w.target.hard && op.key !in w.target.applications
  {
    var run := ArmedRun(op, b);
    assert run[..1] == [] + [run[0]] && run[..2] == run[..1] + [run[1]];
    assert run[..3] == run[..2] + [run[2]] && run == run[..3] + [run[3]];
    AfterSnoc([], run[0]);
    AfterSnoc(run[..1], run[1]);
    AfterSnoc(run[..2], run[2]);
    AfterSnoc(run[..3], run[3]);
    var w1 := After(run[..1]);
    assert w1 == Propose(GENESIS, op).0 && w1.target == GENESIS.target;
    var w2 := After(run[..2]);
    assert w2 == Prepare(w1, b, op.id).0 && w2.target == GENESIS.target;
    var w3 := After(run[..3]);
    assert w3 == Approve(w2, b, op.id, Token(op.id, 1, b.id), None, 0).0 && w3.target == GENESIS.target;
  }

  /** So an aborted effect that was applied is reachable: only the armed death separates the two. */
  lemma AbortedAfterApplication(op: Operation, b: Broker, now: nat)
    requires op.runId != "" && op.action != "" && op.resource != "" && op.key != "" && op.class_ == IdempotentWrite
    ensures var run := ArmedRun(op, b) +
        [CommitStep(b, op.id, Token(op.id, 1, b.id), now), AbortStep(op.id, Some(Token(op.id, 1, b.id)))];
      && op.id in After(run).db.intents && Row(run, op.id).state == Aborted
      && Count(After(run).target.log, op.key) == 1
  {
    ArmedRunIsReady(op, b);
    var run := ArmedRun(op, b);
    DeathThenAbort(run, b, op.id, Token(op.id, 1, b.id), now);
    var token := Token(op.id, 1, b.id);
    RowKeepsItsOperation(run, [CommitStep(b, op.id, token, now), AbortStep(op.id, Some(token))], op.id);
  }

  lemma RowKeepsItsOperation(steps: seq<Step>, more: seq<Step>, id: string)
    requires id in After(steps).db.intents
    ensures id in After(steps + more).db.intents && Row(steps + more, id).op == Row(steps, id).op
  {
    RunGrows(steps, more);
  }

  // ---------------------------------------------------------------- the outbox

  lemma {:induction false} PathEdges(path: seq<OutboxEvent>, i: nat)
    requires Path(path) && i < |path| - 1
    ensures Start(path[0]) && Edge(path[i], path[i + 1])
  {
    var front := path[..|path| - 1];
    if i < |path| - 2 {
      PathEdges(front, i);
      assert front[i] == path[i] && front[i + 1] == path[i + 1] && front[0] == path[0];
    } else {
      PathStart(path);
    }
  }

  lemma {:induction false} PathStart(path: seq<OutboxEvent>)
    requires Path(path)
    ensures Start(path[0])
  {
    if |path| > 1 {
      PathStart(path[..|path| - 1]);
    }
  }

  /** The events of an intent, in sequence order, are a path of the lifecycle automaton up to its row. */
  lemma OutboxTellsEveryLife(steps: seq<Step>, id: string)
    requires id in After(steps).db.intents
    ensures var path := PathOf(After(steps).db.outbox, id);
      && path != [] && Start(path[0])
      && (forall i :: 0 <= i < |path| - 1 ==> Edge(path[i], path[i + 1]))
      && path[|path| - 1].state == Row(steps, id).state && path[|path| - 1].fence == Row(steps, id).fence
  {
    RowIsSound(steps, id);
    var path := PathOf(After(steps).db.outbox, id);
    PathStart(path);
    forall i | 0 <= i < |path| - 1
      ensures Edge(path[i], path[i + 1])
    {
      PathEdges(path, i);
    }
  }

  /** A step that raises or dies leaves the rows, grants and events alone; only a lost acknowledgement is recorded. */
  lemma FailureWritesNothing(w: World, step: Step)
    requires Taken(w, step).1.Died? || (Taken(w, step).1.Failed? && Taken(w, step).1.error != AmbiguousCommit)
    ensures Taken(w, step).0.db == w.db
  {
  }

  /** One row replaced and one event about it appended. */
  ghost predicate Announces(db: Database, db': Database) {
    && |db'.outbox| == |db.outbox| + 1 && db.outbox <= db'.outbox
    && var e := db'.outbox[|db.outbox|];
    && e.intent in db'.intents && e.state == db'.intents[e.intent].state && e.fence == db'.intents[e.intent].fence
    && db'.intents == db.intents[e.intent := db'.intents[e.intent]]
  }

  lemma CommitAnnounces(w: World, b: Broker, id: string, token: Token, now: nat)
    ensures var w' := Commit(w, b, id, token, now).0; w'.db == w.db || Announces(w.db, w'.db)
  {
  }

  /** Every change of a row is one event about that row, in the same transaction. */
  lemma ChangeIsOneEvent(w: World, step: Step)
    requires Taken(w, step).0.db.intents != w.db.intents
    ensures Announces(w.db, Taken(w, step).0.db)
  {
    match step
    case CommitStep(b, id, token, now) => CommitAnnounces(w, b, id, token, now);
    case _ =>
  }

  // ---------------------------------------------------------------- what only grows

  ghost predicate Final(s: EffectState) {
    s == Aborted || s == Compensated
  }

  /** A row later in its life: same operation, no lower fence, and one owner to each fence version. */
  ghost predicate Older(row: Intent, later: Intent) {
    && later.op == row.op
    && row.fence <= later.fence
    && (row.fence == later.fence && row.fence > 0 ==> row.owner == later.owner)
    && (Final(row.state) ==> later == row)
    && (row.state == Committed ==> later.state == Committed || later.state == Compensated)
    && (row.grant.Some? ==> later.grant == row.grant)
  }

  ghost predicate Grows(w: World, w': World) {
    && (forall id :: id in w.db.intents ==> id in w'.db.intents && Older(w.db.intents[id], w'.db.intents[id]))
    && (forall k :: k in w.db.keys ==> k in w'.db.keys && w'.db.keys[k] == w.db.keys[k])
    && (forall g :: g in w.db.grants ==> g in w'.db.grants && w'.db.grants[g] == w.db.grants[g])
    && w.db.outbox <= w'.db.outbox && w.db.published <= w'.db.published
    && w.target.log <= w'.target.log
  }

  lemma OlderIsTransitive(a: Intent, b: Intent, c: Intent)
    requires Older(a, b) && Older(b, c)
    ensures Older(a, c)
  {
  }

  lemma GrowsIsTransitive(a: World, b: World, c: World)
    requires Grows(a, b) && Grows(b, c)
    ensures Grows(a, c)
  {
    forall id | id in a.db.intents
      ensures id in c.db.intents && Older(a.db.intents[id], c.db.intents[id])
    {
      OlderIsTransitive(a.db.intents[id], b.db.intents[id], c.db.intents[id]);
    }
  }

  /** At most one row is replaced, by a later version of itself. */
  ghost predicate Ages(w: World, w': World, id: string) {
    && id in w.db.intents && id in w'.db.intents
    && w'.db.intents == w.db.intents[id := w'.db.intents[id]]
    && w'.db.keys == w.db.keys && w'.db.published == w.db.published
    && w.db.outbox <= w'.db.outbox && w.target.log <= w'.target.log
    && Older(w.db.intents[id], w'.db.intents[id])
    && (forall g :: g in w.db.grants ==> g in w'.db.grants && w'.db.grants[g] == w.db.grants[g])
  }

  lemma AgesGrows(w: World, w': World, id: string)
    requires Ages(w, w', id)
    ensures Grows(w, w')
  {
  }

  lemma PrepareAges(w: World, b: Broker, id: string)
    requires id in w.db.intents && RowHolds(w, id)
    ensures Ages(w, Prepare(w, b, id).0, id)
  {
  }

  lemma FenceAges(w: World, b: Broker, id: string)
    requires id in w.db.intents && RowHolds(w, id)
    ensures Ages(w, AcquireFence(w, b, id).0, id)
  {
  }

  lemma ApproveAges(w: World, b: Broker, id: string, token: Token, grant: Option<Grant>, now: nat)
    requires id in w.db.intents && RowHolds(w, id)
    ensures Ages(w, Approve(w, b, id, token, grant, now).0, id)
  {
  }

  lemma CommitAges(w: World, b: Broker, id: string, token: Token, now: nat, w': World)
    requires id in w.db.intents && RowHolds(w, id) && w' == Commit(w, b, id, token, now).0
    ensures Ages(w, w', id)
  {
    var row := w.db.intents[id];
    CommitCases(w, b, id, row, token, now);
    if w' != w && row.state == Approved {
      AttemptAges(w, row, token, now, w');
    }
  }

  lemma AttemptAges(w: World, row: Intent, token: Token, now: nat, w': World)
    requires row.op.id in w.db.intents && row == w.db.intents[row.op.id] && row.state == Approved
    requires w' == Attempted(w, row, token, now).0
    ensures Ages(w, w', row.op.id)
  {
  }

  lemma CompensateAges(w: World, id: string, token: Token)
    requires id in w.db.intents && RowHolds(w, id)
    ensures Ages(w, Compensate(w, id, token).0, id)
  {
  }

  lemma AbortAges(w: World, id: string, token: Option<Token>)
    requires id in w.db.intents && RowHolds(w, id)
    ensures Ages(w, Abort(w, id, token).0, id)
  {
  }

  lemma InsertGrows(w: World, w': World, next: Intent)
    requires Inserts(w, w', next)
    ensures Grows(w, w')
  {
  }

  lemma ProposeGrows(w: World, op: Operation)
    requires forall k :: k in w.db.keys ==> w.db.keys[k] in w.db.intents
    ensures Grows(w, Propose(w, op).0)
  {
    var w' := Propose(w, op).0;
    if w' != w {
      InsertGrows(w, w', Intent(op, Proposed, 0, None, None));
    }
  }

  /** The intent a step is about. */
  ghost function About(step: Step): Option<string> {
    match step
    case PrepareStep(_, id) => Some(id)
    case FenceStep(_, id) => Some(id)
    case ApproveStep(_, id, _, _, _) => Some(id)
    case CommitStep(_, id, _, _) => Some(id)
    case CompensateStep(id, _) => Some(id)
    case AbortStep(id, _) => Some(id)
    case _ => None
  }

  lemma StepAges(w: World, step: Step, id: string)
    requires About(step) == Some(id) && id in w.db.intents && RowHolds(w, id)
    ensures Ages(w, Taken(w, step).0, id)
  {
    match step
    case PrepareStep(b, _) => PrepareAges(w, b, id);
    case FenceStep(b, _) => FenceAges(w, b, id);
    case ApproveStep(b, _, token, grant, now) => ApproveAges(w, b, id, token, grant, now);
    case CommitStep(b, _, token, now) => CommitAges(w, b, id, token, now, Taken(w, step).0);
    case CompensateStep(_, token) => CompensateAges(w, id, token);
    case AbortStep(_, token) => AbortAges(w, id, token);
  }

  lemma UnknownIntent(w: World, step: Step, id: string)
    requires About(step) == Some(id) && id !in w.db.intents
    ensures Taken(w, step).0 == w
  {
  }

  lemma GrowsFromItself(w: World, w': World)
    requires w'.db.(published := w.db.published) == w.db && w.db.published <= w'.db.published
    requires w'.target.log == w.target.log
    ensures Grows(w, w')
  {
  }

  lemma AnonymousStepGrows(w: World, step: Step)
    requires Closed(w) && About(step) == None
    ensures Grows(w, Taken(w, step).0)
  {
    if step.ProposeStep? {
      ProposeGrows(w, step.op);
    } else {
      GrowsFromItself(w, Taken(w, step).0);
    }
  }

  lemma StepGrows(w: World, step: Step)
    requires Inv(w)
    ensures Grows(w, Taken(w, step).0)
  {
    var w' := Taken(w, step).0;
    match About(step)
    case None => AnonymousStepGrows(w, step);
    case Some(id) =>
      if id in w.db.intents {
        assert RowHolds(w, id);
        StepAges(w, step, id);
        AgesGrows(w, w', id);
      } else {
        UnknownIntent(w, step, id);
        GrowsFromItself(w, w');
      }
  }

  lemma AfterSnoc(steps: seq<Step>, step: Step)
    ensures After(steps + [step]) == Taken(After(steps), step).0
  {
    assert (steps + [step])[..|steps|] == steps;
  }

  lemma {:induction false} RunGrows(steps: seq<Step>, more: seq<Step>)
    ensures Grows(After(steps), After(steps + more))
  {
    if more == [] {
      assert steps + more == steps;
    } else {
      var front, last := more[..|more| - 1], more[|more| - 1];
      RunGrows(steps, front);
      assert steps + more == (steps + front) + [last];
      AfterSnoc(steps + front, last);
      InvAlways(steps + front);
      StepGrowsFrom(After(steps), After(steps + front), last);
    }
  }

  lemma StepGrowsFrom(origin: World, w: World, step: Step)
    requires Inv(w) && Grows(origin, w)
    ensures Grows(origin, Taken(w, step).0)
  {
    StepGrows(w, step);
    GrowsIsTransitive(origin, w, Taken(w, step).0);
  }

  // ---------------------------------------------------------------- deaths

  /** This commit of the intent died in its transaction, right after the target applied. */
  ghost predicate CommitDies(w: World, step: Step, id: string) {
    step.CommitStep? && step.id == id && Taken(w, step).1 == Died
  }

  ghost predicate DiesAt(steps: seq<Step>, i: nat, id: string) {
    i < |steps| && CommitDies(After(steps[..i]), steps[i], id)
  }

  ghost predicate DiedOn(steps: seq<Step>, id: string) {
    exists i: nat :: DiesAt(steps, i, id)
  }

  lemma DiesAtPrefix(front: seq<Step>, last: Step, i: nat, id: string)
    ensures i < |front| ==> (DiesAt(front + [last], i, id) <==> DiesAt(front, i, id))
    ensures i == |front| ==> (DiesAt(front + [last], i, id) <==> CommitDies(After(front), last, id))
  {
    if i < |front| {
      assert (front + [last])[..i] == front[..i];
    } else {
      assert (front + [last])[..|front|] == front;
    }
  }

  lemma DiedOnSnoc(front: seq<Step>, last: Step, id: string)
    ensures DiedOn(front + [last], id) <==> DiedOn(front, id) || CommitDies(After(front), last, id)
  {
    if DiedOn(front + [last], id) {
      var i: nat :| DiesAt(front + [last], i, id);
      DiesAtPrefix(front, last, i, id);
    }
    if DiedOn(front, id) {
      var i: nat :| DiesAt(front, i, id);
      DiesAtPrefix(front, last, i, id);
    }
    DiesAtPrefix(front, last, |front|, id);
  }

  lemma DeathIsKnown(w: World, step: Step, id: string)
    requires CommitDies(w, step, id)
    ensures id in w.db.intents
  {
  }

  /** A step puts a key among the crashed ones exactly by a death of its own intent. */
  lemma StepCrashes(w: World, step: Step, id: string)
    requires Inv(w) && id in w.db.intents
    ensures var key := w.db.intents[id].op.key;
      key in Taken(w, step).0.target.crashed <==> key in w.target.crashed || CommitDies(w, step, id)
  {
    RowStands(w, id);
    if !step.CommitStep? {
      OnlyCommitsCrash(w, step);
    } else if step.id in w.db.intents {
      RowStands(w, step.id);
      if step.id != id { KeysDiffer(w, id, step.id); }
      CommitCrashes(w, step.broker, w.db.intents[step.id], step.token, step.now);
    } else {
      UnknownIntent(w, step, step.id);
    }
  }

  lemma OnlyCommitsCrash(w: World, step: Step)
    requires !step.CommitStep?
    ensures Taken(w, step).0.target.crashed == w.target.crashed
  {
  }

  lemma CommitCrashes(w: World, b: Broker, row: Intent, token: Token, now: nat)
    requires row.op.id in w.db.intents && row == w.db.intents[row.op.id]
    ensures var (w', outcome) := Commit(w, b, row.op.id, token, now);
      w'.target.crashed == if outcome == Died then w.target.crashed + {row.op.key} else w.target.crashed
  {
  }

  /** A key is among the crashed ones exactly if some commit of its intent died. */
  lemma {:induction false} CrashedIffDied(steps: seq<Step>, id: string)
    ensures DiedOn(steps, id) ==> id in After(steps).db.intents
    ensures id in After(steps).db.intents ==>
      (Row(steps, id).op.key in After(steps).target.crashed <==> DiedOn(steps, id))
  {
    if steps != [] {
      var front, last := steps[..|steps| - 1], steps[|steps| - 1];
      assert steps == front + [last];
      CrashedIffDied(front, id);
      DiedOnSnoc(front, last, id);
      InvAlways(front);
      CrashStep(After(front), last, After(steps), id, DiedOn(front, id));
    }
  }

  lemma CrashStep(w: World, step: Step, w': World, id: string, died: bool)
    requires Inv(w) && w' == Taken(w, step).0
    requires died ==> id in w.db.intents
    requires id in w.db.intents ==> (w.db.intents[id].op.key in w.target.crashed <==> died)
    ensures died || CommitDies(w, step, id) ==> id in w'.db.intents
    ensures id in w'.db.intents ==> (w'.db.intents[id].op.key in w'.target.crashed <==> died || CommitDies(w, step, id))
  {
    StepGrows(w, step);
    if id in w.db.intents {
      StepCrashes(w, step, id);
    } else {
      if CommitDies(w, step, id) { DeathIsKnown(w, step, id); }
      if id in w'.db.intents {
        StepKeepsInv(w, step, w');
        RowStands(w', id);
        NewIsProposed(w, step, id);
      }
    }
  }

  lemma NewIsProposed(w: World, step: Step, id: string)
    requires Inv(w) && id !in w.db.intents && id in Taken(w, step).0.db.intents
    ensures Taken(w, step).0.db.intents[id].state == Proposed
  {
    match About(step)
    case None =>
    case Some(about) =>
      if about in w.db.intents {
        RowStands(w, about);
        StepAges(w, step, about);
      } else {
        UnknownIntent(w, step, about);
      }
  }

  /** An effect that is approved or aborted was applied exactly if some commit of it died. */
  lemma AppliedUncommittedIffDied(steps: seq<Step>, id: string)
    requires id in After(steps).db.intents && (Row(steps, id).state == Approved || Row(steps, id).state == Aborted)
    ensures Count(After(steps).target.log, Row(steps, id).op.key) == 1 <==> DiedOn(steps, id)
    ensures Count(After(steps).target.log, Row(steps, id).op.key) == 0 <==> !DiedOn(steps, id)
  {
    CrashedIffDied(steps, id);
    AppliedAtMostOnce(steps, Row(steps, id).op.key);
    StateTellsTarget(steps, id);
  }

  // ---------------------------------------------------------------- fencing

  /** The step is taken under this token. */
  predicate Wields(step: Step, token: Token) {
    match step
    case ApproveStep(_, id, t, _, _) => t == token && id == token.intent
    case CommitStep(_, id, t, _) => t == token && id == token.intent
    case CompensateStep(id, t) => t == token && id == token.intent
    case AbortStep(id, t) => t == Some(token) && id == token.intent
    case _ => false
  }

  lemma OutdatedTokenIsInert(w: World, step: Step, token: Token)
    requires Wields(step, token) && token.intent in w.db.intents
    requires var row := w.db.intents[token.intent];
      row.op.id == token.intent && FenceShape(row) && row.fence != 0 && !HoldsFence(row, token)
    ensures Taken(w, step).0 == w
  {
  }

  /** Once a higher fence is issued, an older token never changes the database or the target again. */
  lemma OldTokensAreInert(steps: seq<Step>, more: seq<Step>, step: Step, token: Token)
    requires token.intent in After(steps).db.intents && token.version < Row(steps, token.intent).fence
    requires Wields(step, token)
    ensures Taken(After(steps + more), step).0 == After(steps + more)
  {
    RunGrows(steps, more);
    RowIsSound(steps + more, token.intent);
    OutdatedTokenIsInert(After(steps + more), step, token);
  }

  /** Over a whole run no two accepted tokens of one intent share a version and differ in owner. */
  lemma OneTokenPerVersion(steps: seq<Step>, more: seq<Step>, id: string, a: Token, b: Token)
    requires id in After(steps).db.intents && id in After(steps + more).db.intents
    requires HoldsFence(Row(steps, id), a) && HoldsFence(Row(steps + more, id), b)
    ensures a.version <= b.version && (a.version == b.version ==> a == b)
  {
    RunGrows(steps, more);
    RowIsSound(steps, id);
  }

  /** The target's own fence and conflict guards never fire through the broker. */
  lemma TargetGuardsAreUnreachable(steps: seq<Step>, id: string, token: Token, now: nat)
    requires id in After(steps).db.intents && HoldsFence(Row(steps, id), token)
    ensures var t, op := After(steps).target, Row(steps, id).op;
      && Execute(t, op, token.version, now).1 != Fenced
      && Execute(t, op, token.version, now).1 != Conflict
      && CompensateAtTarget(t, op, token.version).1 != UndoFailed(StaleFence)
      && CompensateAtTarget(t, op, token.version).1 != UndoFailed(AdapterConflict)
  {
    RowIsSound(steps, id);
  }

  /** The target keeps its own fence: once it has acted under a token, older tokens are refused there. */
  lemma TargetRemembersFence(t: Target, op: Operation, version: nat, now: nat, older: nat, later: nat)
    requires older < version && Execute(t, op, version, now).1 != Fenced
    ensures var t' := Execute(t, op, version, now).0;
      Execute(t', op, older, later) == (t', Fenced) && CompensateAtTarget(t', op, older).1 != Undone
  {
  }

  lemma CommitNeverConflicts(w: World, b: Broker, id: string, token: Token, now: nat)
    requires id in w.db.intents && RowHolds(w, id)
    ensures Commit(w, b, id, token, now).1 != Failed(AdapterConflict)
  {
  }

  lemma CompensateNeverConflicts(w: World, id: string, token: Token)
    requires id in w.db.intents && RowHolds(w, id)
    ensures Compensate(w, id, token).1 != Failed(AdapterConflict)
  {
  }

  /** So no call of any broker ever raises a conflict. */
  lemma NoAdapterConflict(steps: seq<Step>, step: Step)
    ensures Taken(After(steps), step).1 != Failed(AdapterConflict)
  {
    var w := After(steps);
    match step
    case CommitStep(b, id, token, now) =>
      if id in w.db.intents {
        RowIsSound(steps, id);
        CommitNeverConflicts(w, b, id, token, now);
      }
    case CompensateStep(id, token) =>
      if id in w.db.intents {
        RowIsSound(steps, id);
        CompensateNeverConflicts(w, id, token);
      }
    case _ =>
  }

  // ---------------------------------------------------------------- proposals

  lemma KeyNamesOneIntent(steps: seq<Step>, a: string, b: string)
    requires a in After(steps).db.intents && b in After(steps).db.intents
    requires Row(steps, a).op.key == Row(steps, b).op.key
    ensures a == b
  {
    RowIsSound(steps, a);
    RowIsSound(steps, b);
  }

  /** The row behind an accepted proposal. */
  lemma ProposalHasRow(w: World, op: Operation)
    requires Inv(w) && Propose(w, op).1.Done?
    ensures var (w', outcome) := Propose(w, op);
      && op.key in w'.db.keys && w'.db.keys[op.key] in w'.db.intents
      && w'.db.intents[w'.db.keys[op.key]] == outcome.intent
      && outcome.intent.op.key == op.key && SameOperation(outcome.intent.op, op)
  {
  }

  lemma ProposalIsAnswered(w: World, id: string, again: Operation)
    requires again.key in w.db.keys && w.db.keys[again.key] == id && id in w.db.intents
    ensures var (w', outcome) := Propose(w, again);
      && w' == w
      && (outcome == Failed(InvalidRequest) || outcome == Failed(IdempotencyConflict)
        || outcome == Done(w.db.intents[id]))
      && (outcome == Failed(IdempotencyConflict) ==> !SameOperation(w.db.intents[id].op, again))
  {
  }

  lemma AcceptedIsValid(w: World, w': World, op: Operation)
    requires Propose(w, op).1.Done?
    ensures Propose(w', op).1 != Failed(InvalidRequest)
  {
  }

  /** A proposal that was accepted is answered from its row ever after, and a different one under its key conflicts. */
  lemma ProposalsAreIdempotent(steps: seq<Step>, more: seq<Step>, op: Operation, again: Operation)
    requires Propose(After(steps), op).1.Done? && again.key == op.key
    ensures var w := After(steps + [ProposeStep(op)] + more);
      var (w', outcome) := Propose(w, again);
      && w' == w
      && (outcome.Done? ==> outcome.intent.op == Propose(After(steps), op).1.intent.op)
      && (outcome.Done? || outcome == Failed(IdempotencyConflict) || outcome == Failed(InvalidRequest))
      && (again == op ==> outcome.Done?)
  {
    var w0 := After(steps);
    var first := steps + [ProposeStep(op)];
    AfterSnoc(steps, ProposeStep(op));
    InvAlways(steps);
    ProposalHasRow(w0, op);
    var w1 := After(first);
    var id := w1.db.keys[op.key];
    RunGrows(first, more);
    var w := After(first + more);
    assert Older(w1.db.intents[id], w.db.intents[id]);
    ProposalIsAnswered(w, id, again);
    AcceptedIsValid(w0, w, op);
  }

  // ---------------------------------------------------------------- replays

  /** The calls that answer a repetition from the row. */
  predicate Repeatable(step: Step) {
    step.ApproveStep? || step.CommitStep? || step.CompensateStep? || step.AbortStep?
  }

  lemma ApprovalRepeats(w: World, b: Broker, id: string, token: Token, grant: Option<Grant>, now: nat)
    requires id in w.db.intents && RowHolds(w, id) && Approve(w, b, id, token, grant, now).1.Done?
    ensures var (w', outcome) := Approve(w, b, id, token, grant, now);
      Approve(w', b, id, token, grant, now) == (w', outcome)
  {
  }

  lemma CommitRepeats(w: World, b: Broker, id: string, token: Token, now: nat)
    requires id in w.db.intents && RowHolds(w, id) && Commit(w, b, id, token, now).1.Done?
    ensures var (w', outcome) := Commit(w, b, id, token, now); Commit(w', b, id, token, now) == (w', outcome)
  {
  }

  /** A call that succeeded changes nothing when it is made again, and answers the same. */
  lemma RepetitionIsIdempotent(steps: seq<Step>, step: Step)
    requires Repeatable(step) && Taken(After(steps), step).1.Done?
    ensures var (w', outcome) := Taken(After(steps), step); Taken(w', step) == (w', outcome)
  {
    var w := After(steps);
    RowIsSound(steps, step.id);
    match step
    case ApproveStep(b, id, token, grant, now) => ApprovalRepeats(w, b, id, token, grant, now);
    case CommitStep(b, id, token, now) => CommitRepeats(w, b, id, token, now);
    case _ => EndingRepeats(w, step);
  }

  lemma EndingRepeats(w: World, step: Step)
    requires step.CompensateStep? || step.AbortStep?
    requires step.id in w.db.intents && RowHolds(w, step.id) && Taken(w, step).1.Done?
    ensures var (w', outcome) := Taken(w, step); Taken(w', step) == (w', outcome)
  {
  }

  // ---------------------------------------------------------------- irreversible authority

  /** An irreversible intent that is approved or later, or was ever applied, holds a grant made for it alone. */
  lemma IrreversibleHoldsItsGrant(steps: seq<Step>, id: string)
    requires id in After(steps).db.intents && Row(steps, id).op.class_ == IrreversibleWrite
    requires PastPreparation(Row(steps, id).state) || Row(steps, id).op.key in After(steps).target.applications
    ensures Authorized(After(steps).db, Row(steps, id))
    ensures forall j :: j in After(steps).db.intents && j != id ==> Row(steps, j).grant != Row(steps, id).grant
  {
    RowIsSound(steps, id);
    forall j | j in After(steps).db.intents && j != id
      ensures Row(steps, j).grant != Row(steps, id).grant
    {
      RowIsSound(steps, j);
    }
  }

  /** Every target application of an irreversible intent was made inside its grant's validity interval. */
  lemma AppliedInsideTheWindow(steps: seq<Step>, id: string, i: nat)
    requires id in After(steps).db.intents && Row(steps, id).op.class_ == IrreversibleWrite
    requires i < |After(steps).target.log| && After(steps).target.log[i].key == Row(steps, id).op.key
    ensures Authorized(After(steps).db, Row(steps, id))
    ensures var g := After(steps).db.grants[Row(steps, id).grant.value];
      g.claims.notBefore <= After(steps).target.log[i].at < g.claims.expires
  {
    RowIsSound(steps, id);
  }

  /** The step approves an intent with this grant, verified by the broker that takes it. */
  predicate Grants(step: Step, g: Grant) {
    step.ApproveStep? && step.grant == Some(g) && GrantVerifies(step.broker, g.claims.digest, g, true, step.now)
  }

  lemma NewGrantWasVerified(w: World, step: Step, h: string)
    requires h in Taken(w, step).0.db.grants && h !in w.db.grants
    ensures Grants(step, Taken(w, step).0.db.grants[h])
  {
    match step
    case ApproveStep(b, id, token, grant, now) => NewGrantIsOffered(w, b, id, token, grant, now, h);
    case CommitStep(b, id, token, now) =>
    case _ =>
  }

  lemma NewGrantIsOffered(w: World, b: Broker, id: string, token: Token, grant: Option<Grant>, now: nat, h: string)
    requires h in Approve(w, b, id, token, grant, now).0.db.grants && h !in w.db.grants
    ensures var g := Approve(w, b, id, token, grant, now).0.db.grants[h];
      grant == Some(g) && GrantVerifies(b, g.claims.digest, g, true, now)
  {
  }

  ghost predicate WasGranted(steps: seq<Step>, g: Grant) {
    exists i :: 0 <= i < |steps| && Grants(steps[i], g)
  }

  /** Every stored grant was authenticated, in scope and in time, by the broker that stored it. */
  lemma {:induction false} GrantsWereVerified(steps: seq<Step>, h: string)
    requires h in After(steps).db.grants
    ensures WasGranted(steps, After(steps).db.grants[h])
  {
    var front, last := steps[..|steps| - 1], steps[|steps| - 1];
    if h in After(front).db.grants {
      GrantsWereVerified(front, h);
    }
    InvAlways(front);
    GrantStep(front, last, After(front), After(steps), h);
    SplitLast(steps);
  }

  lemma GrantStep(front: seq<Step>, last: Step, w: World, w': World, h: string)
    requires Inv(w) && w' == Taken(w, last).0 && h in w'.db.grants
    requires h in w.db.grants ==> WasGranted(front, w.db.grants[h])
    ensures WasGranted(front + [last], w'.db.grants[h])
  {
    if h in w.db.grants {
      StepGrows(w, last);
      GrantLasts(front, last, w.db.grants[h]);
    } else {
      NewGrantWasVerified(w, last, h);
      GrantIsLast(front, last, w'.db.grants[h]);
    }
  }

  lemma GrantLasts(front: seq<Step>, last: Step, g: Grant)
    requires WasGranted(front, g)
    ensures WasGranted(front + [last], g)
  {
    var i :| 0 <= i < |front| && Grants(front[i], g);
    assert Grants((front + [last])[i], g);
  }

  lemma GrantIsLast(front: seq<Step>, last: Step, g: Grant)
    requires Grants(last, g)
    ensures WasGranted(front + [last], g)
  {
    assert Grants((front + [last])[|front|], g);
  }

  lemma AttemptAppends(w: World, intent: Intent, token: Token, now: nat)
    ensures var log := Attempted(w, intent, token, now).0.target.log;
      log == w.target.log || log == w.target.log + [Applied(intent.op.key, intent.op.id, now)]
  {
  }

  lemma OnlyCommitsApply(w: World, step: Step)
    requires !step.CommitStep?
    ensures Taken(w, step).0.target.log == w.target.log
  {
  }

  /** The row under which a step applied an effect, and its licence. */
  lemma NewApplicationWasLicensed(w: World, step: Step, row: Intent)
    requires step.CommitStep? && step.id in w.db.intents && row == w.db.intents[step.id] && row.op.id == step.id
    requires Taken(w, step).0.target.log != w.target.log
    ensures Taken(w, step).0.target.log == w.target.log + [Applied(row.op.key, row.op.id, step.now)]
    ensures row.op.class_ == IrreversibleWrite ==>
      && row.grant.Some? && row.grant.value in w.db.grants
      && GrantVerifies(step.broker, row.op, w.db.grants[row.grant.value], true, step.now)
  {
    AttemptAppends(w, row, step.token, step.now);
  }

  /** Some commit made the application, holding the stored grant and checking it at that very time. */
  ghost predicate LicensedBy(steps: seq<Step>, i: nat, a: Applied, db: Database) {
    && i < |steps| && steps[i].CommitStep? && steps[i].now == a.at && steps[i].id == a.intent
    && a.intent in db.intents && db.intents[a.intent].op.key == a.key
    && var row := db.intents[a.intent];
    (row.op.class_ == IrreversibleWrite ==>
      && row.grant.Some? && row.grant.value in db.grants
      && GrantVerifies(steps[i].broker, row.op, db.grants[row.grant.value], true, a.at))
  }

  /** Every target application was made by a commit whose broker authenticated the grant inside its window. */
  lemma {:induction false} ApplicationsWereLicensed(steps: seq<Step>, k: nat)
    requires k < |After(steps).target.log|
    ensures exists i: nat :: LicensedBy(steps, i, After(steps).target.log[k], After(steps).db)
  {
    var front, last := steps[..|steps| - 1], steps[|steps| - 1];
    var w := After(front);
    InvAlways(front);
    StepGrows(w, last);
    assert steps == front + [last];
    if k < |w.target.log| {
      ApplicationsWereLicensed(front, k);
      var i: nat :| LicensedBy(front, i, w.target.log[k], w.db);
      LicenceLasts(front, last, i, w.target.log[k], w, After(steps));
    } else {
      AppliedNow(w, After(steps), last, k);
      LicenceIsNew(front, last, k, w, After(steps));
    }
  }

  lemma AppliedNow(w: World, w': World, step: Step, k: nat)
    requires Inv(w) && w' == Taken(w, step).0 && |w.target.log| <= k < |w'.target.log|
    ensures step.CommitStep? && step.id in w.db.intents && w.db.intents[step.id].op.id == step.id && k == |w.target.log|
  {
    if !step.CommitStep? {
      OnlyCommitsApply(w, step);
    } else if step.id in w.db.intents {
      assert RowHolds(w, step.id);
      NewApplicationWasLicensed(w, step, w.db.intents[step.id]);
    }
  }

  lemma LicenceLasts(front: seq<Step>, last: Step, i: nat, a: Applied, w: World, w': World)
    requires LicensedBy(front, i, a, w.db) && Grows(w, w')
    ensures LicensedBy(front + [last], i, a, w'.db)
  {
  }

  lemma LicenceIsNew(front: seq<Step>, last: Step, k: nat, w: World, w': World)
    requires w' == Taken(w, last).0 && Grows(w, w') && k == |w.target.log| < |w'.target.log|
    requires last.CommitStep? && last.id in w.db.intents && w.db.intents[last.id].op.id == last.id
    ensures LicensedBy(front + [last], |front|, w'.target.log[k], w'.db)
  {
    NewApplicationWasLicensed(w, last, w.db.intents[last.id]);
  }

  // ---------------------------------------------------------------- reconciliation

  /** A broker can take over an ambiguous intent, at any time. */
  lemma TakeOver(w: World, b: Broker, id: string) returns (w': World, row: Intent)
    requires Inv(w) && id in w.db.intents && w.db.intents[id].state == Ambiguous
    ensures (w', Done(row)) == AcquireFence(w, b, id)
    ensures Inv(w') && w'.target == w.target && w'.db.grants == w.db.grants && w'.db.intents[id] == row
    ensures row == w.db.intents[id].(fence := w.db.intents[id].fence + 1, owner := Some(b.id))
    ensures id in w'.db.intents
  {
    w' := AcquireFence(w, b, id).0;
    FenceKeepsInv(w, b, id, w');
    assert RowHolds(w, id);
    row := w'.db.intents[id];
  }

  /** The broker holds the secret the intent's grant was signed with. */
  predicate Trusts(b: Broker, db: Database, intent: Intent) {
    intent.op.class_ == IrreversibleWrite && intent.grant.Some? && intent.grant.value in db.grants ==>
      var g := db.grants[intent.grant.value];
      g.claims.keyId in b.keys && b.keys[g.claims.keyId] == g.signature.secret
  }

  /**
   * Taking over an ambiguous intent and committing it ends COMMITTED with no further application, at any
   * time, exactly when the broker trusts the key of its grant.
   */
  lemma AmbiguousIsReconciled(steps: seq<Step>, b: Broker, id: string, now: nat)
    requires id in After(steps).db.intents && Row(steps, id).state == Ambiguous
    ensures var (w1, taken) := AcquireFence(After(steps), b, id);
      && taken.Done?
      && var (w2, outcome) := Commit(w1, b, id, Token(id, taken.intent.fence, b.id), now);
      && w2.target == After(steps).target
      && (Trusts(b, After(steps).db, Row(steps, id)) <==> outcome.Done? && outcome.intent.state == Committed)
      && (!outcome.Done? ==> outcome == Failed(InvalidApproval))
  {
    InvAlways(steps);
    var w1, row := TakeOver(After(steps), b, id);
    Reconciles(w1, b, id, row, now);
  }

  lemma Reconciles(w: World, b: Broker, id: string, row: Intent, now: nat)
    requires Inv(w) && id in w.db.intents && row == w.db.intents[id]
    requires row.state == Ambiguous && row.owner == Some(b.id)
    ensures var (w', outcome) := Commit(w, b, id, Token(id, row.fence, b.id), now);
      && w'.target == w.target
      && (Trusts(b, w.db, row) <==> outcome.Done? && outcome.intent.state == Committed)
      && (!outcome.Done? ==> outcome == Failed(InvalidApproval))
  {
    assert RowHolds(w, id);
    RowReconciles(w, b, row, now);
  }

  lemma RowReconciles(w: World, b: Broker, row: Intent, now: nat)
    requires row.op.id in w.db.intents && row == w.db.intents[row.op.id] && Reflects(w.target, row) && Granted(w, row)
    requires row.state == Ambiguous && row.owner == Some(b.id)
    ensures var (w', outcome) := Commit(w, b, row.op.id, Token(row.op.id, row.fence, b.id), now);
      && w'.target == w.target
      && (Trusts(b, w.db, row) <==> outcome.Done? && outcome.intent.state == Committed)
      && (!outcome.Done? ==> outcome == Failed(InvalidApproval))
  {
  }
}

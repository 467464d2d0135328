/** First-use onboarding: internal/service/onboarding.go.

    `Next` is one statement of one of any number of concurrent Setup calls. Each
    call works in a READ COMMITTED transaction of its own; the advisory lock is
    held from its statement to the end of the transaction. */
module Onboarding {
  import opened Common

  datatype Environment = Prod | Test

  datatype Member = Member(id: Uuid, email: string)
  datatype Scope = GlobalScope | TenantScope(tenant: Uuid)
  datatype Role = Superadmin | TenantAdmin
  datatype MemberRole = MemberRole(member: Uuid, role: Role, scope: Scope)
  datatype Tenant = Tenant(id: Uuid, code: string)
  datatype Workspace = Workspace(id: Uuid, logicalId: Uuid, tenant: Uuid, code: string, env: Environment, isSystem: bool)
  datatype Audit = Audit(member: Uuid, tenant: Uuid)

  datatype Db = Db(
    members: seq<Member>, roles: seq<MemberRole>, tenants: seq<Tenant>, workspaces: seq<Workspace>, audits: seq<Audit>)
  {
    function Plus(more: Db): Db {
      Db(members + more.members, roles + more.roles, tenants + more.tenants,
         workspaces + more.workspaces, audits + more.audits)
    }
  }

  const EMPTY := Db([], [], [], [], [])

  /** The claims, the requested tenant and the uuids generated for one call. */
  datatype Request = Request(
    email: string, tenantCode: string, memberId: Uuid, tenantId: Uuid, logicalId: Uuid, prodId: Uuid, testId: Uuid)

  const INSERTS := 6

  /** The n-th INSERT of the set. */
  function Insert(req: Request, n: nat, db: Db): Db {
    match n
    case 0 => db.(members := db.members + [Member(req.memberId, req.email)])
    case 1 => db.(roles := db.roles + [MemberRole(req.memberId, Superadmin, GlobalScope)])
    case 2 => db.(tenants := db.tenants + [Tenant(req.tenantId, req.tenantCode)])
    case 3 => db.(roles := db.roles + [MemberRole(req.memberId, TenantAdmin, TenantScope(req.tenantId))])
    case 4 => db.(workspaces := db.workspaces + [SystemWorkspace(req, Prod)])
    case _ => db.(workspaces := db.workspaces + [SystemWorkspace(req, Test)])
  }

  function SystemWorkspace(req: Request, env: Environment): Workspace {
    Workspace(if env == Prod then req.prodId else req.testId, req.logicalId, req.tenantId, "_system", env, true)
  }

  function InsertAudit(req: Request, db: Db): Db {
    db.(audits := db.audits + [Audit(req.memberId, req.tenantId)])
  }

  /** One complete set: the member with both roles, the tenant, and its pair of
      system workspaces sharing one logical id; the audit row is optional. */
  function CompleteSet(req: Request, audited: bool): Db {
    Db(
      [Member(req.memberId, req.email)],
      [MemberRole(req.memberId, Superadmin, GlobalScope), MemberRole(req.memberId, TenantAdmin, TenantScope(req.tenantId))],
      [Tenant(req.tenantId, req.tenantCode)],
      [Workspace(req.prodId, req.logicalId, req.tenantId, "_system", Prod, true),
       Workspace(req.testId, req.logicalId, req.tenantId, "_system", Test, true)],
      if audited then [Audit(req.memberId, req.tenantId)] else [])
  }

  /** What a complete set is: one member, who is superadmin everywhere and admin of the
      one tenant, and that tenant's system workspaces, one per environment, under one
      logical id; at most one audit row, about them. */
  lemma {:induction false} CompleteSetMeans(req: Request, audited: bool)
    ensures var db := CompleteSet(req, audited);
      && |db.members| == |db.tenants| == 1 && |db.roles| == |db.workspaces| == 2
      && db.members[0].email == req.email && db.tenants[0].code == req.tenantCode
      && (forall r | r in db.roles :: r.member == db.members[0].id)
      && (exists r :: r in db.roles && r.role == Superadmin && r.scope == GlobalScope)
      && (exists r :: r in db.roles && r.role == TenantAdmin && r.scope == TenantScope(db.tenants[0].id))
      && (forall w | w in db.workspaces :: w.isSystem && w.code == "_system" && w.tenant == db.tenants[0].id)
      && db.workspaces[0].logicalId == db.workspaces[1].logicalId
      && (exists w :: w in db.workspaces && w.env == Prod) && (exists w :: w in db.workspaces && w.env == Test)
      && db.audits == if audited then [Audit(db.members[0].id, db.tenants[0].id)] else []
  {
    var db := CompleteSet(req, audited);
    assert db.roles[0] in db.roles && db.roles[1] in db.roles;
    assert db.workspaces[0] in db.workspaces && db.workspaces[1] in db.workspaces;
  }

  // ----------------------------------------------------------------- transactions

  /** A transaction's own rows. Once a statement fails it is aborted: PostgreSQL
      then only accepts a rollback, to a savepoint or of everything. */
  datatype Tx = Tx(rows: Db, aborted: bool, savepoint: Option<Db>)

  const NEW_TX := Tx(EMPTY, false, None)

  datatype Outcome = Succeeded | Conflict | Failed

  datatype Pc =
    | Beginning | Locking | Counting | Inserting(n: nat)
    | Savepointing | Auditing | AfterAudit(auditOk: bool) | Committing
    | RollingBack(outcome: Outcome) | Returned(outcome: Outcome)

  datatype Call = Call(req: Request, pc: Pc, tx: Tx)

  /** `winners` is history: the calls whose COMMIT succeeded, in order. */
  datatype World = World(committed: Db, lock: Option<nat>, calls: seq<Call>, winners: seq<nat>)

  datatype Action = Spawn(req: Request) | Step(call: nat, ok: bool)

  function Move(w: World, i: nat, pc: Pc, tx: Tx): World
    requires i < |w.calls|
  {
    w.(calls := w.calls[i := w.calls[i].(pc := pc, tx := tx)])
  }

  function Release(w: World, i: nat): World {
    if w.lock == Some(i) then w.(lock := None) else w
  }

  /** One statement of call `i`; `ok` says whether the database accepts it. */
  function CallStep(w: World, i: nat, ok: bool): World
    requires i < |w.calls|
  {
    var Call(req, pc, tx) := w.calls[i];
    match pc
    case Beginning => Move(w, i, if ok then Locking else Returned(Failed), NEW_TX)
    case Locking =>
      if !ok then Move(w, i, RollingBack(Failed), tx)
      else if w.lock.Some? then w
      else Move(w, i, Counting, tx).(lock := Some(i))
    case Counting =>
      if !ok then Move(w, i, RollingBack(Failed), tx)
      else if |w.committed.members| + |tx.rows.members| != 0 then Move(w, i, RollingBack(Conflict), tx)
      else Move(w, i, Inserting(0), tx)
    case Inserting(n) =>
      if !ok then Move(w, i, RollingBack(Failed), tx.(aborted := true))
      else Move(w, i, if n + 1 < INSERTS then Inserting(n + 1) else Savepointing, tx.(rows := Insert(req, n, tx.rows)))
    case Savepointing =>
      if ok then Move(w, i, Auditing, tx.(savepoint := Some(tx.rows)))
      else Move(w, i, Committing, tx.(aborted := true))
    case Auditing =>
      if ok then Move(w, i, AfterAudit(true), tx.(rows := InsertAudit(req, tx.rows)))
      else Move(w, i, AfterAudit(false), tx.(aborted := true))
    case AfterAudit(auditOk) =>
      if auditOk then Move(w, i, Committing, if ok then tx.(savepoint := None) else tx.(aborted := true))
      else if ok then Move(w, i, Committing, tx.(rows := tx.savepoint.GetOr(EMPTY), aborted := false))
      else Move(w, i, Committing, tx)
    case Committing =>
      if ok && !tx.aborted then
        Release(Move(w, i, Returned(Succeeded), tx), i).(
        committed := w.committed.Plus(tx.rows), winners := w.winners + [i])
      else Release(Move(w, i, Returned(Failed), tx), i)
    case RollingBack(outcome) => Release(Move(w, i, Returned(outcome), tx), i)
    case Returned(_) => w
  }

  function Next(w: World, a: Action): World {
    match a
    case Spawn(req) => w.(calls := w.calls + [Call(req, Beginning, NEW_TX)])
    case Step(i, ok) => if i < |w.calls| then CallStep(w, i, ok) else w
  }

  function Run(w: World, actions: seq<Action>): World
    decreases |actions|
  {
    if actions == [] then w else Run(Next(w, actions[0]), actions[1..])
  }

  function Idle(db: Db): World {
    World(db, None, [], [])
  }

  /** The world a run of concurrent calls leaves. */
  function After(start: Db, trace: seq<Action>): World {
    Run(Idle(start), trace)
  }

  // --------------------------------------------------------------------- invariant

  /** What the first n INSERTs have put into an empty transaction. */
  function Partial(req: Request, n: nat): Db {
    if n == 0 then EMPTY else Insert(req, n - 1, Partial(req, n - 1))
  }

  lemma {:induction false} SixInsertsComplete(req: Request)
    ensures Partial(req, INSERTS) == CompleteSet(req, false)
    ensures InsertAudit(req, CompleteSet(req, false)) == CompleteSet(req, true)
  {
    assert Partial(req, 1) == Insert(req, 0, EMPTY);
    assert Partial(req, 2) == Insert(req, 1, Partial(req, 1));
    assert Partial(req, 3) == Insert(req, 2, Partial(req, 2));
    assert Partial(req, 4) == Insert(req, 3, Partial(req, 3));
    assert Partial(req, 5) == Insert(req, 4, Partial(req, 4));
    assert Partial(req, 6) == Insert(req, 5, Partial(req, 5));
  }

  /** The statements that run under the lock. */
  predicate UnderLock(pc: Pc) {
    pc.Counting? || pc.Inserting? || pc.Savepointing? || pc.Auditing? || pc.AfterAudit? || pc.Committing?
  }

  predicate IsCompleteSet(req: Request, rows: Db) {
    rows == CompleteSet(req, false) || rows == CompleteSet(req, true)
  }

  predicate AddsOneSet(start: Db, req: Request, db: Db) {
    db == start.Plus(CompleteSet(req, false)) || db == start.Plus(CompleteSet(req, true))
  }

  /** The transaction holds what its program point says. */
  predicate TxOk(c: Call) {
    match c.pc
    case Beginning => c.tx == NEW_TX
    case Locking => c.tx == NEW_TX
    case Counting => c.tx == NEW_TX
    case Inserting(n) => n < INSERTS && c.tx == Tx(Partial(c.req, n), false, None)
    case Savepointing => c.tx == Tx(CompleteSet(c.req, false), false, None)
    case Auditing => c.tx == Tx(CompleteSet(c.req, false), false, Some(CompleteSet(c.req, false)))
    case AfterAudit(auditOk) =>
      c.tx == Tx(CompleteSet(c.req, auditOk), !auditOk, Some(CompleteSet(c.req, false)))
    case Committing => c.tx.aborted || IsCompleteSet(c.req, c.tx.rows)
    case _ => true
  }

  predicate CallOk(w: World, i: nat)
    requires i < |w.calls|
  {
    var c := w.calls[i];
    && TxOk(c)
    && (UnderLock(c.pc) ==> w.lock == Some(i))
    && (UnderLock(c.pc) && !c.pc.Counting? ==> w.committed.members == [])
    && (c.pc == Returned(Succeeded) <==> w.winners == [i])
    && c.pc != RollingBack(Succeeded)
  }

  /** Nobody has committed, or exactly one call has, adding one complete set to a
      database without members. */
  predicate OneWinner(start: Db, w: World) {
    || (w.winners == [] && w.committed == start)
    || (|w.winners| == 1 && w.winners[0] < |w.calls| && start.members == []
        && AddsOneSet(start, w.calls[w.winners[0]].req, w.committed))
  }

  ghost predicate Inv(start: Db, w: World) {
    && (forall i | 0 <= i < |w.calls| :: CallOk(w, i))
    && OneWinner(start, w)
  }

  lemma {:induction false} CommitKeepsInv(start: Db, w: World, i: nat)
    requires Inv(start, w) && i < |w.calls| && w.calls[i].pc.Committing? && !w.calls[i].tx.aborted
    ensures Inv(start, CallStep(w, i, true))
  {
    assert CallOk(w, i);
    var w' := CallStep(w, i, true);
    assert w.winners == [];
    assert w'.winners == [i] && w'.calls[i].req == w.calls[i].req;
    assert AddsOneSet(start, w.calls[i].req, w'.committed);
    forall j | 0 <= j < |w'.calls| ensures CallOk(w', j) {
      assert CallOk(w, j);
    }
  }

  /** Any other statement writes nothing outside its own transaction, takes the
      lock only when it is free and releases only its own. */
  lemma {:induction false} StepIsPrivate(w: World, i: nat, ok: bool)
    requires i < |w.calls|
    requires !(w.calls[i].pc.Committing? && ok && !w.calls[i].tx.aborted)
    ensures var w' := CallStep(w, i, ok);
            && w'.committed == w.committed && w'.winners == w.winners
            && |w'.calls| == |w.calls| && w'.calls[i].req == w.calls[i].req
            && (forall j | 0 <= j < |w.calls| && j != i :: w'.calls[j] == w.calls[j])
            && (w'.lock == w.lock || (w.lock == None && w'.lock == Some(i)) || (w.lock == Some(i) && w'.lock == None))
  {
  }

  lemma {:induction false} InsertKeepsOwn(w: World, i: nat, ok: bool)
    requires i < |w.calls| && CallOk(w, i) && w.calls[i].pc.Inserting?
    ensures i < |CallStep(w, i, ok).calls| && CallOk(CallStep(w, i, ok), i)
  {
    var n := w.calls[i].pc.n;
    if n + 1 == INSERTS {
      SixInsertsComplete(w.calls[i].req);
    }
  }

  /** The call that moves is where it should be afterwards. */
  lemma {:induction false} StepKeepsOwn(w: World, i: nat, ok: bool)
    requires i < |w.calls| && CallOk(w, i)
    requires !(w.calls[i].pc.Committing? && ok && !w.calls[i].tx.aborted)
    ensures i < |CallStep(w, i, ok).calls| && CallOk(CallStep(w, i, ok), i)
  {
    if w.calls[i].pc.Inserting? {
      InsertKeepsOwn(w, i, ok);
    }
  }

  lemma {:induction false} StepKeepsInv(start: Db, w: World, i: nat, ok: bool)
    requires Inv(start, w) && i < |w.calls|
    requires !(w.calls[i].pc.Committing? && ok && !w.calls[i].tx.aborted)
    ensures Inv(start, CallStep(w, i, ok))
  {
    var w' := CallStep(w, i, ok);
    assert CallOk(w, i);
    StepIsPrivate(w, i, ok);
    StepKeepsOwn(w, i, ok);
    forall j | 0 <= j < |w'.calls| ensures CallOk(w', j) {
      assert CallOk(w, j);
    }
    assert w.winners != [] ==> w'.calls[w.winners[0]].req == w.calls[w.winners[0]].req;
  }

  lemma {:induction false} NextKeepsInv(start: Db, w: World, a: Action)
    requires Inv(start, w)
    ensures Inv(start, Next(w, a))
  {
    match a
    case Spawn(req) =>
      var w' := Next(w, a);
      forall j | 0 <= j < |w'.calls| ensures CallOk(w', j) {
        assert j < |w.calls| ==> CallOk(w, j);
      }
    case Step(i, ok) =>
      if i < |w.calls| {
        if w.calls[i].pc.Committing? && ok && !w.calls[i].tx.aborted {
          CommitKeepsInv(start, w, i);
        } else {
          StepKeepsInv(start, w, i, ok);
        }
      }
  }

  lemma {:induction false} RunKeepsInv(start: Db, w: World, actions: seq<Action>)
    requires Inv(start, w)
    ensures Inv(start, Run(w, actions))
    decreases |actions|
  {
    if actions != [] {
      NextKeepsInv(start, w, actions[0]);
      RunKeepsInv(start, Next(w, actions[0]), actions[1..]);
    }
  }

  // ---------------------------------------------------------------------- theorems

  /** Over every interleaving of any number of calls, each failing at any statement:
      at most one commits, a call reports success exactly when it is that one, and
      the database is the starting one or that plus one complete set, the latter
      only when it had no member. */
  lemma {:induction false} AtMostOneSetupCommits(start: Db, actions: seq<Action>)
    ensures var w := After(start, actions);
            && |w.winners| <= 1
            && (forall i | 0 <= i < |w.calls| :: w.calls[i].pc == Returned(Succeeded) <==> w.winners == [i])
            && (w.winners == [] ==> w.committed == start)
            && (forall i | w.winners == [i] ::
                  0 <= i < |w.calls| && start.members == [] && AddsOneSet(start, w.calls[i].req, w.committed))
  {
    RunKeepsInv(start, Idle(start), actions);
    var w := After(start, actions);
    forall i | 0 <= i < |w.calls| ensures w.calls[i].pc == Returned(Succeeded) <==> w.winners == [i] {
      assert CallOk(w, i);
    }
  }

  /** Once there is a member nothing more is ever written, whatever still runs. */
  lemma {:induction false} SetupIsFirstUseOnly(start: Db, before: seq<Action>, after: seq<Action>)
    requires After(start, before).committed.members != []
    ensures After(start, before + after).committed == After(start, before).committed
  {
    RunKeepsInv(start, Idle(start), before);
    RunAppends(Idle(start), before, after);
    NothingMoreIsWritten(start, After(start, before), after);
  }

  lemma {:induction false} NothingMoreIsWritten(start: Db, w: World, actions: seq<Action>)
    requires Inv(start, w) && w.committed.members != []
    ensures Run(w, actions).committed == w.committed
    decreases |actions|
  {
    if actions != [] {
      NextKeepsInv(start, w, actions[0]);
      assert forall i | 0 <= i < |w.calls| :: CallOk(w, i);
      assert Next(w, actions[0]).committed == w.committed;
      NothingMoreIsWritten(start, Next(w, actions[0]), actions[1..]);
    }
  }

  lemma {:induction false} RunAppends(w: World, before: seq<Action>, after: seq<Action>)
    ensures Run(w, before + after) == Run(Run(w, before), after)
    decreases |before|
  {
    if before == [] {
      assert before + after == after;
    } else {
      assert (before + after)[0] == before[0] && (before + after)[1..] == before[1..] + after;
      RunAppends(Next(w, before[0]), before[1..], after);
    }
  }

  predicate Spares(actions: seq<Action>, i: nat) {
    forall a | a in actions :: a.Step? ==> a.call != i
  }

  /** While a call holds the lock no other call writes the database or disturbs it. */
  lemma {:induction false} LockHolderIsUndisturbed(start: Db, w: World, i: nat, others: seq<Action>)
    requires Inv(start, w) && i < |w.calls| && UnderLock(w.calls[i].pc) && Spares(others, i)
    ensures var w' := Run(w, others);
            Inv(start, w') && i < |w'.calls| && w'.calls[i] == w.calls[i]
            && w'.committed == w.committed && w'.winners == w.winners
    decreases |others|
  {
    if others != [] {
      var a := others[0];
      assert CallOk(w, i);
      NextKeepsInv(start, w, a);
      if a.Step? && a.call < |w.calls| {
        assert CallOk(w, a.call);
        StepIsPrivate(w, a.call, a.ok);
      }
      LockHolderIsUndisturbed(start, Next(w, a), i, others[1..]);
    }
  }

  /** One statement of the lock holder followed by any statements of other calls. */
  function StepThen(w: World, i: nat, ok: bool, others: seq<Action>): World {
    Run(Next(w, Step(i, ok)), others)
  }

  lemma {:induction false} HolderSteps(start: Db, w: World, i: nat, ok: bool, others: seq<Action>)
    requires Inv(start, w) && i < |w.calls| && UnderLock(w.calls[i].pc) && !w.calls[i].pc.Committing? && Spares(others, i)
    requires UnderLock(CallStep(w, i, ok).calls[i].pc)
    ensures var w' := StepThen(w, i, ok, others);
            Inv(start, w') && i < |w'.calls| && w'.calls[i] == CallStep(w, i, ok).calls[i]
            && w'.committed == w.committed && w'.winners == w.winners
  {
    NextKeepsInv(start, w, Step(i, ok));
    StepIsPrivate(w, i, ok);
    LockHolderIsUndisturbed(start, Next(w, Step(i, ok)), i, others);
  }

  /** Where the two statements after the SAVEPOINT leave the lock holder. */
  lemma {:induction false} AuditSteps(start: Db, w: World, i: nat, auditOk: bool, settled: bool, a: seq<Action>, b: seq<Action>)
    requires Inv(start, w) && i < |w.calls| && w.calls[i].pc.Auditing?
    requires Spares(a, i) && Spares(b, i)
    ensures var w' := StepThen(StepThen(w, i, auditOk, a), i, settled, b);
            && Inv(start, w') && i < |w'.calls| && w'.calls[i].pc.Committing? && w'.calls[i].req == w.calls[i].req
            && w'.calls[i].tx.aborted == !settled
            && (settled ==> w'.calls[i].tx.rows == CompleteSet(w.calls[i].req, auditOk))
            && w'.committed == start
  {
    assert CallOk(w, i);
    HolderSteps(start, w, i, auditOk, a);
    var w1 := StepThen(w, i, auditOk, a);
    assert CallOk(w1, i);
    HolderSteps(start, w1, i, settled, b);
  }

  /** A failed audit INSERT loses nothing exactly when the ROLLBACK TO SAVEPOINT whose
      error is ignored succeeds (and the COMMIT): then the whole set is there without
      the audit row, and otherwise nothing is. */
  lemma {:induction false} AuditIsBestEffortIff(start: Db, before: seq<Action>, i: nat, auditOk: bool, settled: bool, commitOk: bool,
                             a: seq<Action>, b: seq<Action>)
    requires i < |After(start, before).calls| && After(start, before).calls[i].pc.Auditing?
    requires Spares(a, i) && Spares(b, i)
    ensures var w := After(start, before);
            var w' := Next(StepThen(StepThen(w, i, auditOk, a), i, settled, b), Step(i, commitOk));
            && i < |w'.calls|
            && (w'.calls[i].pc == Returned(if settled && commitOk then Succeeded else Failed))
            && w'.committed == (if settled && commitOk then start.Plus(CompleteSet(w.calls[i].req, auditOk)) else start)
  {
    RunKeepsInv(start, Idle(start), before);
    AuditSteps(start, After(start, before), i, auditOk, settled, a, b);
  }

  /** A failed SAVEPOINT skips the audit but has aborted the transaction, so the
      COMMIT that follows always fails and the set is lost. */
  lemma {:induction false} SavepointFailureLosesTheSet(start: Db, before: seq<Action>, i: nat, commitOk: bool, others: seq<Action>)
    requires i < |After(start, before).calls| && After(start, before).calls[i].pc.Savepointing? && Spares(others, i)
    ensures var w' := Next(StepThen(After(start, before), i, false, others), Step(i, commitOk));
            i < |w'.calls| && w'.calls[i].pc == Returned(Failed) && w'.committed == start
  {
    var w := After(start, before);
    RunKeepsInv(start, Idle(start), before);
    assert CallOk(w, i);
    assert w.winners == [] && w.committed == start;
    HolderSteps(start, w, i, false, others);
  }

  // ----------------------------------------------------------------------- service

  /** Which statements of one call the database accepts. */
  datatype Faults = Faults(
    begin: bool, lock: bool, count: bool, insert: seq<bool>, savepoint: bool, audit: bool, settle: bool, commit: bool)
  {
    predicate InsertOk(n: nat) {
      n < |insert| && insert[n]
    }

    predicate AllInserts() {
      forall n: nat | n < INSERTS :: InsertOk(n)
    }
  }

  /** A world with one call. */
  ghost predicate Alone(w: World, db: Db, req: Request, pc: Pc, tx: Tx) {
    w.committed == db && w.calls == [Call(req, pc, tx)] && w.winners == []
    && (UnderLock(pc) ==> w.lock == Some(0)) && (pc.Beginning? || pc.Locking? ==> w.lock == None)
  }

  lemma {:induction false} Extend(start: Db, trace: seq<Action>, a: Action)
    ensures After(start, trace + [a]) == Next(After(start, trace), a)
  {
    RunAppends(Idle(start), trace, [a]);
    var w := After(start, trace);
    assert [a][1..] == [] && Run(w, [a]) == Run(Next(w, a), []);
  }


  class OnboardingService {
    var db: Db

    /** Runs one call alone. The trace shows it to be a run of the machine above. */
    method Setup(req: Request, faults: Faults) returns (outcome: Outcome, ghost trace: seq<Action>)
      modifies this
      ensures Finished(After(old(db), trace), db, req, outcome)
      ensures outcome == Conflict <==> faults.begin && faults.lock && faults.count && old(db).members != []
      ensures outcome == Succeeded <==>
        faults.begin && faults.lock && faults.count && old(db).members == []
        && faults.AllInserts() && faults.savepoint && faults.settle && faults.commit
      ensures db == if outcome == Succeeded then old(db).Plus(CompleteSet(req, faults.audit)) else old(db)
    {
      trace := StartTrace(db, req);
      trace := Took(db, req, Beginning, NEW_TX, trace, faults.begin);
      if !faults.begin { return Failed, trace; }
      trace := Took(db, req, Locking, NEW_TX, trace, faults.lock);
      if !faults.lock {
        trace := Took(db, req, RollingBack(Failed), NEW_TX, trace, true);
        return Failed, trace;
      }
      trace := Took(db, req, Counting, NEW_TX, trace, faults.count);
      if !faults.count {
        trace := Took(db, req, RollingBack(Failed), NEW_TX, trace, true);
        return Failed, trace;
      }
      if |db.members| != 0 {
        trace := Took(db, req, RollingBack(Conflict), NEW_TX, trace, true);
        return Conflict, trace;
      }
      var inserted, rows;
      inserted, rows, trace := InsertAll(req, faults, trace);
      if !inserted {
        trace := Took(db, req, RollingBack(Failed), Tx(rows, true, None), trace, true);
        return Failed, trace;
      }
      outcome, trace := AuditAndCommit(req, faults, trace);
    }

    /** The four single INSERTs and the loop over the two system workspaces. */
    method InsertAll(req: Request, faults: Faults, ghost before: seq<Action>)
      returns (ok: bool, rows: Db, ghost trace: seq<Action>)
      requires Alone(After(db, before), db, req, Inserting(0), NEW_TX)
      ensures ok <==> faults.AllInserts()
      ensures ok ==> rows == CompleteSet(req, false)
      ensures Alone(After(db, trace), db, req, if ok then Savepointing else RollingBack(Failed), Tx(rows, !ok, None))
    {
      rows := EMPTY;
      ok := faults.InsertOk(0);
      trace := Took(db, req, Inserting(0), Tx(rows, false, None), before, ok);
      if !ok { return; }
      rows := rows.(members := rows.members + [Member(req.memberId, req.email)]);
      ok := faults.InsertOk(1);
      trace := Took(db, req, Inserting(1), Tx(rows, false, None), trace, ok);
      if !ok { return; }
      rows := rows.(roles := rows.roles + [MemberRole(req.memberId, Superadmin, GlobalScope)]);
      ok := faults.InsertOk(2);
      trace := Took(db, req, Inserting(2), Tx(rows, false, None), trace, ok);
      if !ok { return; }
      rows := rows.(tenants := rows.tenants + [Tenant(req.tenantId, req.tenantCode)]);
      ok := faults.InsertOk(3);
      trace := Took(db, req, Inserting(3), Tx(rows, false, None), trace, ok);
      if !ok { return; }
      rows := rows.(roles := rows.roles + [MemberRole(req.memberId, TenantAdmin, TenantScope(req.tenantId))]);
      ok, rows, trace := InsertPair(req, faults, rows, trace);
      assert ok ==> faults.AllInserts();
    }

    /** The loop over the two system workspaces. */
    method InsertPair(req: Request, faults: Faults, before: Db, ghost earlier: seq<Action>)
      returns (ok: bool, rows: Db, ghost trace: seq<Action>)
      requires Alone(After(db, earlier), db, req, Inserting(4), Tx(before, false, None)) && before.workspaces == []
      ensures ok <==> faults.InsertOk(4) && faults.InsertOk(5)
      ensures ok ==> rows == before.(workspaces := [SystemWorkspace(req, Prod), SystemWorkspace(req, Test)])
      ensures Alone(After(db, trace), db, req, if ok then Savepointing else RollingBack(Failed), Tx(rows, !ok, None))
    {
      var pair := [SystemWorkspace(req, Prod), SystemWorkspace(req, Test)];
      ok, rows, trace := true, before, earlier;
      for i := 0 to 2
        invariant i > 0 ==> faults.InsertOk(4)
        invariant i > 1 ==> faults.InsertOk(5)
        invariant rows == before.(workspaces := pair[..i])
        invariant ok && Alone(After(db, trace), db, req, if i < 2 then Inserting(4 + i) else Savepointing, Tx(rows, false, None))
      {
        ok := faults.InsertOk(4 + i);
        trace := Took(db, req, Inserting(4 + i), Tx(rows, false, None), trace, ok);
        if !ok { return; }
        rows := rows.(workspaces := rows.workspaces + [pair[i]]);
      }
    }

    /** The best-effort audit row and the commit, once the six rows are in. */
    method AuditAndCommit(req: Request, faults: Faults, ghost before: seq<Action>)
      returns (outcome: Outcome, ghost trace: seq<Action>)
      requires Alone(After(db, before), db, req, Savepointing, Tx(CompleteSet(req, false), false, None))
      modifies this
      ensures outcome != Conflict && (outcome == Succeeded <==> faults.savepoint && faults.settle && faults.commit)
      ensures db == if outcome == Succeeded then old(db).Plus(CompleteSet(req, faults.audit)) else old(db)
      ensures Finished(After(old(db), trace), db, req, outcome)
    {
      var rows := CompleteSet(req, false);
      var savepoint: Option<Db> := None;
      var aborted := false;
      trace := Took(db, req, Savepointing, Tx(rows, aborted, savepoint), before, faults.savepoint);
      if faults.savepoint {
        savepoint := Some(rows);
        trace := Took(db, req, Auditing, Tx(rows, aborted, savepoint), trace, faults.audit);
        if faults.audit {
          rows := InsertAudit(req, rows);
          trace := Took(db, req, AfterAudit(true), Tx(rows, aborted, savepoint), trace, faults.settle);
          if faults.settle { savepoint := None; } else { aborted := true; }
        } else {
          aborted := true;
          trace := Took(db, req, AfterAudit(false), Tx(rows, aborted, savepoint), trace, faults.settle);
          if faults.settle {
            rows := savepoint.GetOr(EMPTY);
            aborted := false;
          }
        }
      } else {
        aborted := true;
      }
      trace := Took(db, req, Committing, Tx(rows, aborted, savepoint), trace, faults.commit);
      if faults.commit && !aborted {
        db := db.Plus(rows);
        outcome := Succeeded;
      } else {
        outcome := Failed;
      }
    }
  }

  ghost predicate Finished(w: World, db: Db, req: Request, outcome: Outcome) {
    |w.calls| == 1 && w.calls[0].req == req && w.calls[0].pc == Returned(outcome) && w.committed == db
  }

  lemma {:induction false} StartTrace(db: Db, req: Request) returns (trace: seq<Action>)
    ensures Alone(After(db, trace), db, req, Beginning, NEW_TX)
  {
    trace := [] + [Spawn(req)];
    Extend(db, [], Spawn(req));
  }

  /** The trace after one more statement of the only call. */
  lemma {:induction false} Took(db: Db, req: Request, pc: Pc, tx: Tx, before: seq<Action>, ok: bool) returns (trace: seq<Action>)
    requires Alone(After(db, before), db, req, pc, tx)
    ensures After(db, trace) == CallStep(After(db, before), 0, ok)
    ensures trace == before + [Step(0, ok)]
    ensures !pc.Committing? ==> Alone(After(db, trace), db, req, After(db, trace).calls[0].pc, After(db, trace).calls[0].tx)
  {
    trace := before + [Step(0, ok)];
    Extend(db, before, Step(0, ok));
  }

  /** A call alone up to its n-th INSERT, nothing failing. */
  lemma {:induction false} Inserted(db: Db, req: Request, n: nat) returns (trace: seq<Action>)
    requires db.members == [] && n <= INSERTS
    ensures Alone(After(db, trace), db, req, if n < INSERTS then Inserting(n) else Savepointing, Tx(Partial(req, n), false, None))
  {
    if n == 0 {
      trace := StartTrace(db, req);
      trace := Took(db, req, Beginning, NEW_TX, trace, true);
      trace := Took(db, req, Locking, NEW_TX, trace, true);
      trace := Took(db, req, Counting, NEW_TX, trace, true);
    } else {
      trace := Inserted(db, req, n - 1);
      trace := Took(db, req, Inserting(n - 1), Tx(Partial(req, n - 1), false, None), trace, true);
    }
  }

  /** The audit INSERT and the ROLLBACK TO SAVEPOINT fail, everything else works: the
      call fails and the six inserted rows are gone. */
  lemma {:induction false} FailedRollbackLosesTheSet(db: Db, req: Request)
    returns (before: seq<Action>, trace: seq<Action>)
    requires db.members == []
    ensures Alone(After(db, before), db, req, Auditing, Tx(CompleteSet(req, false), false, Some(CompleteSet(req, false))))
    ensures trace == before + [Step(0, false), Step(0, false), Step(0, true)]
    ensures Finished(After(db, trace), db, req, Failed)
  {
    SixInsertsComplete(req);
    var rows := CompleteSet(req, false);
    var six := Inserted(db, req, INSERTS);
    before := Took(db, req, Savepointing, Tx(rows, false, None), six, true);
    var audit := Took(db, req, Auditing, Tx(rows, false, Some(rows)), before, false);
    var settle := Took(db, req, AfterAudit(false), Tx(rows, true, Some(rows)), audit, false);
    trace := Took(db, req, Committing, Tx(rows, true, Some(rows)), settle, true);
    assert trace == before + [Step(0, false), Step(0, false), Step(0, true)];
  }
}

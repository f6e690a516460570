/**
 * Concurrent database transactions of the Postgres store (internal/store/postgres.go). The
 * database keeps the promises the source builds on: Read Committed, primary keys whose unique
 * index makes an insert wait for an uncommitted rival, `FOR UPDATE` row locks, no deletes. Any
 * number of calls run, each one statement at a time; any statement may fail, and a commit may be
 * acknowledged, lost on the way back, or aborted. A label whose call must wait, or that fits no
 * call, leaves the state as it is.
 */
module PostgresRaces {
  import opened Types
  import StoreSpec

  type Call = nat

  datatype Kind = Wallets | Proposals

  datatype Resource = AWallet(wallet: Wallet) | AProposal(proposal: Proposal)

  /** A table and a primary key in it. */
  datatype Place = Place(kind: Kind, id: string)

  function At(r: Resource): Place {
    match r
    case AWallet(w) => Place(Wallets, w.id)
    case AProposal(p) => Place(Proposals, p.id)
  }

  /** The scopes the service uses: "wallet:" + chain and "transaction:" + wallet id. */
  function Scope(kind: Kind, name: string): string {
    if kind == Wallets then "wallet:" + name else "transaction:" + name
  }

  lemma ScopeInjective(k: Kind, n: string, j: Kind, m: string)
    requires Scope(k, n) == Scope(j, m)
    ensures k == j && n == m
  {
    assert Scope(k, n)[0] == if k == Wallets then 'w' else 't';
    assert Scope(j, m)[0] == if j == Wallets then 'w' else 't';
    var len := if k == Wallets then |"wallet:"| else |"transaction:"|;
    assert Scope(k, n)[len..] == n && Scope(j, m)[len..] == m;
  }

  /** One idempotent create: the resource to store, under `key` in the scope of `name`. */
  datatype Creation = Creation(resource: Resource, name: string, key: string)

  type KeyName = (string, string)

  function KeyOf(r: Creation): KeyName { (Scope(At(r.resource).kind, r.name), r.key) }

  /** The status column an insert writes; wallets have none. */
  function StatusOf(r: Resource): Option<Status> {
    if r.AProposal? then Some(r.proposal.status) else None
  }

  /** A row with the idempotent create that inserted it, if one did (history, never read). */
  datatype Row = Row(doc: Resource, status: Option<Status>, creator: Option<Call>)
  datatype KeyRow = KeyRow(resourceID: string, creator: Call)
  datatype Database = Database(rows: map<Place, Row>, keys: map<KeyName, KeyRow>)

  datatype RowOp =
    | Approving(tx: string, approval: Approval)
    | Marking(tx: string, signed: SignedTx, now: Time)

  /** What an idempotent create returns; `ZeroValue` is the empty resource with a nil error. */
  datatype Outcome = Returned(resource: Resource, isNew: bool) | ZeroValue | NotFound | Duplicate | Failure

  datatype RowOutcome = Wrote(proposal: Proposal) | Left(proposal: Proposal) | Refused(error: Error) | Broke

  datatype Session =
    // an idempotent create
    | Begun(req: Creation)
    | Missed(req: Creation)
    | Inserted(req: Creation)
    | Keyed(req: Creation)
    | Found(req: Creation, id: string)
    | RolledBack(req: Creation)
    | Reread(req: Creation, id: string)
    | Done(req: Creation, outcome: Outcome)
    // AddApproval or MarkTransactionSigned
    | Locked(op: RowOp, snapshot: Proposal)
    | RowDone(op: RowOp, result: RowOutcome)

  datatype State = State(db: Database, sessions: map<Call, Session>)

  const START := State(Database(map[], map[]), map[])

  datatype CommitOutcome = Acknowledged | Lost | Aborted

  /** `Next` is the call's next statement; `commit` is how it ends if that is a COMMIT. */
  datatype Step =
    | Begin(c: Call, req: Creation)
    | Lock(c: Call, op: RowOp)
    | Next(c: Call, commit: CommitOutcome)
    | Break(c: Call)
    | InsertPlain(resource: Resource)
    | Overwrite(proposal: Proposal)

  // ----- what other open transactions hold

  /** The uncommitted row the session has inserted sits at `place`. */
  predicate HoldsPlace(n: Session, place: Place) {
    (n.Inserted? || n.Keyed?) && At(n.req.resource) == place
  }

  predicate HoldsKey(n: Session, key: KeyName) { n.Keyed? && KeyOf(n.req) == key }

  predicate HoldsLock(n: Session, tx: string) { n.Locked? && n.op.tx == tx }

  predicate PlaceBusy(s: State, place: Place) { exists d :: d in s.sessions && HoldsPlace(s.sessions[d], place) }

  predicate KeyBusy(s: State, key: KeyName) { exists d :: d in s.sessions && HoldsKey(s.sessions[d], key) }

  predicate LockBusy(s: State, tx: string) { exists d :: d in s.sessions && HoldsLock(s.sessions[d], tx) }

  // ----- steps

  function Move(s: State, c: Call, n: Session): State { s.(sessions := s.sessions[c := n]) }

  function Finish(s: State, c: Call, req: Creation, out: Outcome): State { Move(s, c, Done(req, out)) }

  function DoCheck(s: State, c: Call, req: Creation): State {
    if KeyOf(req) in s.db.keys then Move(s, c, Found(req, s.db.keys[KeyOf(req)].resourceID))
    else Move(s, c, Missed(req))
  }

  function DoInsertRow(s: State, c: Call, req: Creation): State {
    if At(req.resource) in s.db.rows then Finish(s, c, req, Duplicate)
    else if PlaceBusy(s, At(req.resource)) then s
    else Move(s, c, Inserted(req))
  }

  function DoInsertKey(s: State, c: Call, req: Creation): State {
    if KeyOf(req) in s.db.keys then Move(s, c, RolledBack(req))
    else if KeyBusy(s, KeyOf(req)) then s
    else Move(s, c, Keyed(req))
  }

  /** The rows of an idempotent create become visible together. */
  function Publish(db: Database, c: Call, req: Creation): Database {
    Database(db.rows[At(req.resource) := Row(req.resource, StatusOf(req.resource), Some(c))],
             db.keys[KeyOf(req) := KeyRow(At(req.resource).id, c)])
  }

  function DoCommit(s: State, c: Call, req: Creation, commit: CommitOutcome): State {
    var out := if commit == Acknowledged then Returned(req.resource, true) else Failure;
    State(if commit == Aborted then s.db else Publish(s.db, c, req), s.sessions[c := Done(req, out)])
  }

  /** walletForIdempotency and transactionForIdempotency, first statement. */
  function DoReadKey(s: State, c: Call, req: Creation): State {
    if KeyOf(req) in s.db.keys then Move(s, c, Reread(req, s.db.keys[KeyOf(req)].resourceID))
    else Finish(s, c, req, ZeroValue)
  }

  /** getWalletTx and getTransactionTx inside the transaction, GetWallet and GetTransaction after it. */
  function DoReadRow(s: State, c: Call, req: Creation, id: string): State {
    var place := Place(At(req.resource).kind, id);
    Finish(s, c, req, if place in s.db.rows then Returned(s.db.rows[place].doc, false) else NotFound)
  }

  function DoInsertPlain(s: State, r: Resource): State {
    if At(r) in s.db.rows || PlaceBusy(s, At(r)) then s
    else s.(db := s.db.(rows := s.db.rows[At(r) := Row(r, StatusOf(r), None)]))
  }

  /** The row with a new document and, unless the statement leaves that column out, its status. */
  function Rewrite(db: Database, p: Proposal, column: bool): Database
    requires At(AProposal(p)) in db.rows
  {
    var place := At(AProposal(p));
    var row := db.rows[place];
    db.(rows := db.rows[place := row.(doc := AProposal(p), status := if column then Some(p.status) else row.status)])
  }

  function DoOverwrite(s: State, p: Proposal): State {
    if At(AProposal(p)) !in s.db.rows || LockBusy(s, p.id) then s
    else s.(db := Rewrite(s.db, p, true))
  }

  /** What the operation writes, from the document it read. */
  function Written(op: RowOp, p: Proposal): Proposal {
    match op
    case Approving(_, a) => StoreSpec.Approve(p, a)
    case Marking(_, signed, now) => p.(status := Signed, signed := signed, updatedAt := now)
  }

  /** The result of an operation that writes nothing, if it is one. */
  function Refusal(op: RowOp, p: Proposal): Option<RowOutcome> {
    match op
    case Approving(_, a) =>
      if p.status != Proposed then Some(Refused(TransactionNotProposed))
      else if a.signerID in p.approvals then Some(Refused(DuplicateApproval))
      else None
    case Marking(_, _, _) => if p.status != Proposed then Some(Left(p)) else None
  }

  function DoLock(s: State, c: Call, op: RowOp): State {
    var place := Place(Proposals, op.tx);
    if place !in s.db.rows then Move(s, c, RowDone(op, Refused(TransactionNotFound)))
    else if LockBusy(s, op.tx) || !s.db.rows[place].doc.AProposal? then s
    else
      var p := s.db.rows[place].doc.proposal;
      match Refusal(op, p)
      case Some(out) => Move(s, c, RowDone(op, out))
      case None => Move(s, c, Locked(op, p))
  }

  function DoCommitRow(s: State, c: Call, op: RowOp, p: Proposal, commit: CommitOutcome): State {
    var q := Written(op, p);
    var out := if commit == Acknowledged then Wrote(q) else Broke;
    State(if commit == Aborted || At(AProposal(q)) !in s.db.rows then s.db else Rewrite(s.db, q, op.Marking?),
          s.sessions[c := RowDone(op, out)])
  }

  function DoNext(s: State, c: Call, n: Session, commit: CommitOutcome): State {
    match n
    case Begun(req) => DoCheck(s, c, req)
    case Missed(req) => DoInsertRow(s, c, req)
    case Inserted(req) => DoInsertKey(s, c, req)
    case Keyed(req) => DoCommit(s, c, req, commit)
    case Found(req, id) => DoReadRow(s, c, req, id)
    case RolledBack(req) => DoReadKey(s, c, req)
    case Reread(req, id) => DoReadRow(s, c, req, id)
    case Locked(op, p) => DoCommitRow(s, c, op, p, commit)
    case Done(_, _) => s
    case RowDone(_, _) => s
  }

  /** A statement fails: the call returns the error and its transaction is rolled back. */
  function DoBreak(s: State, c: Call, n: Session): State {
    if n.Done? || n.RowDone? then s
    else if n.Locked? then Move(s, c, RowDone(n.op, Broke))
    else Finish(s, c, n.req, Failure)
  }

  function Do(s: State, step: Step): State {
    match step
    case Begin(c, req) => if c in s.sessions then s else Move(s, c, Begun(req))
    case Lock(c, op) => if c in s.sessions then s else DoLock(s, c, op)
    case Next(c, commit) => if c in s.sessions then DoNext(s, c, s.sessions[c], commit) else s
    case Break(c) => if c in s.sessions then DoBreak(s, c, s.sessions[c]) else s
    case InsertPlain(r) => DoInsertPlain(s, r)
    case Overwrite(p) => DoOverwrite(s, p)
  }

  /** The state after the given steps, from an empty database. */
  function Exec(steps: seq<Step>): State
    decreases |steps|
  {
    if steps == [] then START else Do(Exec(steps[..|steps| - 1]), steps[|steps| - 1])
  }

  // ----- the invariant

  ghost predicate Created(s: State, key: KeyName, c: Call) {
    && key in s.db.keys && s.db.keys[key].creator == c
  }

  /** The committed key was inserted by a finished call for it, together with that call's resource. */
  ghost predicate KeyOK(s: State, key: KeyName)
    requires key in s.db.keys
  {
    var k := s.db.keys[key];
    && k.creator in s.sessions && s.sessions[k.creator].Done?
    && var req := s.sessions[k.creator].req;
    && KeyOf(req) == key && At(req.resource).id == k.resourceID
    && At(req.resource) in s.db.rows && s.db.rows[At(req.resource)].creator == Some(k.creator)
  }

  /** The committed row is where its document belongs; an idempotent create inserted it with its key. */
  ghost predicate RowOK(s: State, place: Place)
    requires place in s.db.rows
  {
    var row := s.db.rows[place];
    && At(row.doc) == place && row.status == StatusOf(row.doc)
    && (row.creator.Some? ==>
          var c := row.creator.value;
          && c in s.sessions && s.sessions[c].Done?
          && At(s.sessions[c].req.resource) == place && Created(s, KeyOf(s.sessions[c].req), c)
          && (place.kind == Wallets ==> row.doc == s.sessions[c].req.resource))
  }

  /** The resource returned is the one stored by the call that created the key. */
  ghost predicate DoneOK(s: State, c: Call, req: Creation, out: Outcome) {
    match out
    case Returned(r, isNew) =>
      && KeyOf(req) in s.db.keys && At(r) == Place(At(req.resource).kind, s.db.keys[KeyOf(req)].resourceID)
      && At(r) in s.db.rows
      && (isNew <==> Created(s, KeyOf(req), c)) && (isNew ==> r == req.resource)
      && (r.AWallet? ==> s.db.rows[At(r)].doc == r)
    case ZeroValue => false
    case NotFound => false
    case Duplicate => !Created(s, KeyOf(req), c) && At(req.resource) in s.db.rows
    case Failure => true
  }

  ghost predicate SessionOK(s: State, c: Call)
    requires c in s.sessions
  {
    match s.sessions[c]
    case Begun(_) => true
    case Missed(_) => true
    case Inserted(req) => At(req.resource) !in s.db.rows
    case Keyed(req) => At(req.resource) !in s.db.rows && KeyOf(req) !in s.db.keys
    case Found(req, id) => KeyOf(req) in s.db.keys && s.db.keys[KeyOf(req)].resourceID == id
    case RolledBack(req) => KeyOf(req) in s.db.keys
    case Reread(req, id) => KeyOf(req) in s.db.keys && s.db.keys[KeyOf(req)].resourceID == id
    case Done(req, out) => DoneOK(s, c, req, out)
    case Locked(op, p) =>
      && Place(Proposals, op.tx) in s.db.rows && s.db.rows[Place(Proposals, op.tx)].doc == AProposal(p)
      && Refusal(op, p) == None
    case RowDone(_, _) => true
  }

  /** No two open transactions hold the same row, key or lock. */
  ghost predicate Exclusive(s: State) {
    forall c, d :: c in s.sessions && d in s.sessions && c != d ==> Compatible(s.sessions[c], s.sessions[d])
  }

  ghost predicate Compatible(n: Session, m: Session) {
    && ((n.Inserted? || n.Keyed?) ==> !HoldsPlace(m, At(n.req.resource)))
    && (n.Keyed? ==> !HoldsKey(m, KeyOf(n.req)))
    && (n.Locked? ==> !HoldsLock(m, n.op.tx))
  }

  ghost predicate Inv(s: State) {
    && (forall k :: k in s.db.keys ==> KeyOK(s, k))
    && (forall p :: p in s.db.rows ==> RowOK(s, p))
    && (forall c :: c in s.sessions ==> SessionOK(s, c))
    && Exclusive(s)
  }

  // ----- every step keeps it

  /** A call takes a step that commits nothing. */
  lemma MoveKeeps(s: State, c: Call, n: Session)
    requires Inv(s) && (c in s.sessions ==> !s.sessions[c].Done?)
    requires SessionOK(Move(s, c, n), c)
    requires forall d :: d in s.sessions && d != c ==> Compatible(n, s.sessions[d]) && Compatible(s.sessions[d], n)
    ensures Inv(Move(s, c, n))
  {
    var t := Move(s, c, n);
    forall k | k in t.db.keys ensures KeyOK(t, k) { assert KeyOK(s, k); }
    forall p | p in t.db.rows ensures RowOK(t, p) { assert RowOK(s, p); }
    forall d | d in t.sessions && d != c ensures SessionOK(t, d) { assert SessionOK(s, d); }
  }

  /** Rewriting a document that nobody has locked. */
  lemma RewriteKeeps(s: State, p: Proposal, column: bool)
    requires Inv(s) && At(AProposal(p)) in s.db.rows && !LockBusy(s, p.id)
    requires column || s.db.rows[At(AProposal(p))].status == Some(p.status)
    ensures Inv(s.(db := Rewrite(s.db, p, column)))
  {
    hide Scope, SessionOK, KeyOf, KeyOK, RowOK;
    var t := s.(db := Rewrite(s.db, p, column));
    forall d | d in t.sessions ensures SessionOK(t, d) { RewriteKeepsSession(s, p, column, d); }
    forall k | k in t.db.keys ensures KeyOK(t, k) { RewriteKeepsKey(s, p, column, k); }
    forall q | q in t.db.rows ensures RowOK(t, q) { RewriteKeepsRow(s, p, column, q); }
  }

  lemma RewriteKeepsKey(s: State, p: Proposal, column: bool, k: KeyName)
    requires k in s.db.keys && KeyOK(s, k) && At(AProposal(p)) in s.db.rows
    ensures KeyOK(s.(db := Rewrite(s.db, p, column)), k)
  {
    hide KeyOf;
  }

  lemma RewriteKeepsRow(s: State, p: Proposal, column: bool, q: Place)
    requires q in s.db.rows && RowOK(s, q) && At(AProposal(p)) in s.db.rows
    requires column || s.db.rows[At(AProposal(p))].status == Some(p.status)
    ensures RowOK(s.(db := Rewrite(s.db, p, column)), q)
  {
    hide KeyOf;
  }

  lemma RewriteKeepsSession(s: State, p: Proposal, column: bool, d: Call)
    requires d in s.sessions && SessionOK(s, d) && At(AProposal(p)) in s.db.rows && !HoldsLock(s.sessions[d], p.id)
    ensures SessionOK(s.(db := Rewrite(s.db, p, column)), d)
  {
    hide KeyOf;
  }

  lemma InsertPlainKeeps(s: State, r: Resource)
    requires Inv(s)
    ensures Inv(DoInsertPlain(s, r))
  {
    var t := DoInsertPlain(s, r);
    if t != s {
      forall k | k in t.db.keys ensures KeyOK(t, k) { assert KeyOK(s, k); }
      forall q | q in t.db.rows ensures RowOK(t, q) { assert q in s.db.rows ==> RowOK(s, q); }
      forall d | d in t.sessions ensures SessionOK(t, d) {
        assert SessionOK(s, d);
        assert !HoldsPlace(s.sessions[d], At(r));
      }
    }
  }

  /** A committing create held its row and its key alone, so nobody else relied on their absence. */
  lemma CommitKeeps(s: State, c: Call, commit: CommitOutcome)
    requires Inv(s) && c in s.sessions && s.sessions[c].Keyed?
    ensures Inv(DoCommit(s, c, s.sessions[c].req, commit))
  {
    hide Scope;
    var req := s.sessions[c].req;
    assert SessionOK(s, c);
    if commit == Aborted {
      MoveKeeps(s, c, Done(req, Failure));
    } else {
      PublishKeepsTables(s, c, commit);
      PublishKeepsSessions(s, c, commit);
    }
  }

  lemma PublishKeepsTables(s: State, c: Call, commit: CommitOutcome)
    requires Inv(s) && c in s.sessions && s.sessions[c].Keyed? && commit != Aborted
    ensures
      var t := DoCommit(s, c, s.sessions[c].req, commit);
      && (forall k :: k in t.db.keys ==> KeyOK(t, k)) && (forall q :: q in t.db.rows ==> RowOK(t, q))
  {
    var req := s.sessions[c].req;
    var t := DoCommit(s, c, req, commit);
    assert SessionOK(s, c);
    hide Scope, KeyOK, RowOK, Exclusive, KeyOf, At;
    forall k | k in t.db.keys ensures KeyOK(t, k) { PublishKeepsKey(s, c, req, t, k); }
    forall q | q in t.db.rows ensures RowOK(t, q) { PublishKeepsRow(s, c, req, t, q); }
  }

  /** The state after `c` has committed its request, whatever it was told. */
  ghost predicate Published(s: State, c: Call, req: Creation, t: State) {
    && c in s.sessions && !s.sessions[c].Done?
    && At(req.resource) !in s.db.rows && KeyOf(req) !in s.db.keys
    && t.db == Publish(s.db, c, req) && t.sessions.Keys == s.sessions.Keys
    && t.sessions[c].Done? && t.sessions[c].req == req
    && (forall d :: d in s.sessions && d != c ==> t.sessions[d] == s.sessions[d])
  }

  lemma PublishKeepsKey(s: State, c: Call, req: Creation, t: State, k: KeyName)
    requires Published(s, c, req, t) && k in t.db.keys && (k in s.db.keys ==> KeyOK(s, k))
    ensures KeyOK(t, k)
  {
    hide KeyOf;
  }

  lemma PublishKeepsRow(s: State, c: Call, req: Creation, t: State, q: Place)
    requires Published(s, c, req, t) && q in t.db.rows && (q in s.db.rows ==> RowOK(s, q))
    ensures RowOK(t, q)
  {
    hide KeyOf;
  }

  lemma PublishKeepsSessions(s: State, c: Call, commit: CommitOutcome)
    requires Inv(s) && c in s.sessions && s.sessions[c].Keyed? && commit != Aborted
    ensures
      var t := DoCommit(s, c, s.sessions[c].req, commit);
      (forall d :: d in t.sessions ==> SessionOK(t, d)) && Exclusive(t)
  {
    hide Scope;
    var req := s.sessions[c].req;
    var t := DoCommit(s, c, req, commit);
    assert SessionOK(s, c) && SessionOK(t, c);
    hide SessionOK, KeyOf, At;
    forall d | d in t.sessions && d != c ensures SessionOK(t, d) { PublishKeepsSession(s, c, req, t, d); }
  }

  lemma PublishKeepsSession(s: State, c: Call, req: Creation, t: State, d: Call)
    requires Published(s, c, req, t) && d in s.sessions && d != c
    requires SessionOK(s, d) && Compatible(Keyed(req), s.sessions[d])
    ensures SessionOK(t, d)
  {
    hide KeyOf, Refusal;
  }

  /** A call that ends up holding nothing stands in nobody's way. */
  lemma QuietMoveKeeps(s: State, c: Call, n: Session)
    requires Inv(s) && (c in s.sessions ==> !s.sessions[c].Done?)
    requires SessionOK(Move(s, c, n), c) && !n.Inserted? && !n.Keyed? && !n.Locked?
    ensures Inv(Move(s, c, n))
  {
    hide Scope, KeyOK, RowOK, SessionOK;
    MoveKeeps(s, c, n);
  }

  lemma NextKeeps(s: State, c: Call, commit: CommitOutcome)
    requires Inv(s) && c in s.sessions && !s.sessions[c].Keyed? && !s.sessions[c].Locked?
    ensures Inv(DoNext(s, c, s.sessions[c], commit))
  {
    hide Scope;
    assert SessionOK(s, c);
    hide Inv, Compatible;
    match s.sessions[c]
    case Begun(req) => QuietMoveKeeps(s, c, DoCheck(s, c, req).sessions[c]);
    case Missed(req) => InsertRowKeeps(s, c, req);
    case Inserted(req) => InsertKeyKeeps(s, c, req);
    case Found(req, id) => ReadKeeps(s, c, req, id);
    case RolledBack(req) => QuietMoveKeeps(s, c, DoReadKey(s, c, req).sessions[c]);
    case Reread(req, id) => ReadKeeps(s, c, req, id);
    case Done(_, _) =>
    case RowDone(_, _) =>
  }

  lemma InsertRowKeeps(s: State, c: Call, req: Creation)
    requires Inv(s) && c in s.sessions && s.sessions[c] == Missed(req)
    ensures Inv(DoInsertRow(s, c, req))
  {
    hide Scope;
    var t := DoInsertRow(s, c, req);
    if At(req.resource) in s.db.rows {
      assert !Created(s, KeyOf(req), c) by { assert KeyOf(req) in s.db.keys ==> KeyOK(s, KeyOf(req)); }
      MoveKeeps(s, c, t.sessions[c]);
    } else if !PlaceBusy(s, At(req.resource)) {
      MoveKeeps(s, c, t.sessions[c]);
    }
  }

  lemma InsertKeyKeeps(s: State, c: Call, req: Creation)
    requires Inv(s) && c in s.sessions && s.sessions[c] == Inserted(req)
    ensures Inv(DoInsertKey(s, c, req))
  {
    hide Scope;
    var t := DoInsertKey(s, c, req);
    assert SessionOK(s, c);
    if KeyOf(req) in s.db.keys {
      MoveKeeps(s, c, t.sessions[c]);
    } else if !KeyBusy(s, KeyOf(req)) {
      forall d | d in s.sessions && d != c ensures Compatible(Keyed(req), s.sessions[d]) && Compatible(s.sessions[d], Keyed(req)) {
        assert Compatible(s.sessions[c], s.sessions[d]) && !HoldsKey(s.sessions[d], KeyOf(req));
      }
      MoveKeeps(s, c, t.sessions[c]);
    }
  }

  lemma ReadKeeps(s: State, c: Call, req: Creation, id: string)
    requires Inv(s) && c in s.sessions && (s.sessions[c] == Found(req, id) || s.sessions[c] == Reread(req, id))
    ensures Inv(DoReadRow(s, c, req, id))
  {
    hide Scope;
    assert SessionOK(s, c);
    FoundOK(s, c, req, id);
    QuietMoveKeeps(s, c, DoReadRow(s, c, req, id).sessions[c]);
  }

  /** The row a committed key names is there: the not-found branches are dead. */
  lemma FoundOK(s: State, c: Call, req: Creation, id: string)
    requires Inv(s) && c in s.sessions && !s.sessions[c].Done?
    requires KeyOf(req) in s.db.keys && s.db.keys[KeyOf(req)].resourceID == id
    ensures var t := DoReadRow(s, c, req, id); SessionOK(t, c) && t.sessions[c].outcome.Returned?
  {
    assert KeyOK(s, KeyOf(req));
    var creator := s.db.keys[KeyOf(req)].creator;
    var winner := s.sessions[creator].req;
    ScopeInjective(At(req.resource).kind, req.name, At(winner.resource).kind, winner.name);
    assert RowOK(s, At(winner.resource));
  }

  lemma CommitRowKeeps(s: State, c: Call, commit: CommitOutcome)
    requires Inv(s) && c in s.sessions && s.sessions[c].Locked?
    ensures Inv(DoCommitRow(s, c, s.sessions[c].op, s.sessions[c].snapshot, commit))
  {
    var op, p := s.sessions[c].op, s.sessions[c].snapshot;
    assert SessionOK(s, c) && RowOK(s, Place(Proposals, op.tx));
    var t := DoCommitRow(s, c, op, p, commit);
    var released := Move(s, c, t.sessions[c]);
    MoveKeeps(s, c, t.sessions[c]);
    if commit != Aborted {
      assert !LockBusy(released, op.tx) by {
        forall d | d in released.sessions ensures !HoldsLock(released.sessions[d], op.tx) {
          assert d != c ==> Compatible(s.sessions[c], s.sessions[d]);
        }
      }
      RewriteKeeps(released, Written(op, p), op.Marking?);
    }
  }

  lemma StepKeeps(s: State, step: Step)
    requires Inv(s)
    ensures Inv(Do(s, step))
  {
    match step
    case Begin(c, req) => if c !in s.sessions { MoveKeeps(s, c, Begun(req)); }
    case Lock(c, op) => if c !in s.sessions { LockKeeps(s, c, op); }
    case Next(c, commit) =>
      if c in s.sessions {
        if s.sessions[c].Keyed? { CommitKeeps(s, c, commit); }
        else if s.sessions[c].Locked? { CommitRowKeeps(s, c, commit); }
        else { NextKeeps(s, c, commit); }
      }
    case Break(c) =>
      if c in s.sessions && !s.sessions[c].Done? && !s.sessions[c].RowDone? {
        MoveKeeps(s, c, DoBreak(s, c, s.sessions[c]).sessions[c]);
      }
    case InsertPlain(r) => InsertPlainKeeps(s, r);
    case Overwrite(p) =>
      if At(AProposal(p)) in s.db.rows && !LockBusy(s, p.id) { RewriteKeeps(s, p, true); }
  }

  lemma LockKeeps(s: State, c: Call, op: RowOp)
    requires Inv(s) && c !in s.sessions
    ensures Inv(DoLock(s, c, op))
  {
    var t := DoLock(s, c, op);
    if t != s {
      if t.sessions[c].Locked? {
        forall d | d in s.sessions ensures !HoldsLock(s.sessions[d], op.tx) {}
      }
      MoveKeeps(s, c, t.sessions[c]);
    }
  }

  lemma {:induction false} RunKeeps(steps: seq<Step>)
    ensures Inv(Exec(steps))
    decreases |steps|
  {
    if steps != [] {
      RunKeeps(steps[..|steps| - 1]);
      StepKeeps(Exec(steps[..|steps| - 1]), steps[|steps| - 1]);
    }
  }

  // ----- the outcome of a race on one key

  /** Some committed row or key was inserted by call `c`. */
  ghost predicate CommittedSomething(s: State, c: Call) {
    || (exists p :: p in s.db.rows && s.db.rows[p].creator == Some(c))
    || (exists k :: k in s.db.keys && s.db.keys[k].creator == c)
  }

  /** In every reachable state a call has committed its row and its key, or nothing at all. */
  lemma AllOrNothing(steps: seq<Step>, c: Call)
    ensures var s := Exec(steps);
      CommittedSomething(s, c) <==>
        && c in s.sessions && s.sessions[c].Done? && Created(s, KeyOf(s.sessions[c].req), c)
        && At(s.sessions[c].req.resource) in s.db.rows && s.db.rows[At(s.sessions[c].req.resource)].creator == Some(c)
  {
    RunKeeps(steps);
    var s := Exec(steps);
    hide Scope, KeyOf, Exec;
    if p :| p in s.db.rows && s.db.rows[p].creator == Some(c) {
      assert RowOK(s, p);
    }
    if k :| k in s.db.keys && s.db.keys[k].creator == c {
      assert KeyOK(s, k);
    }
  }

  /** Of the calls racing on one key, at most one commits anything. */
  lemma OneCreator(steps: seq<Step>, c: Call, d: Call)
    requires var s := Exec(steps); CommittedSomething(s, c) && CommittedSomething(s, d)
    requires var s := Exec(steps); c in s.sessions && d in s.sessions && s.sessions[c].Done? && s.sessions[d].Done?
    requires var s := Exec(steps); KeyOf(s.sessions[c].req) == KeyOf(s.sessions[d].req)
    ensures c == d
  {
    hide CommittedSomething, Exec, KeyOf;
    AllOrNothing(steps, c);
    AllOrNothing(steps, d);
  }

  /**
   * A finished call never returns the zero value nor a missing resource; it returned a resource as
   * new exactly when it committed and was told so, and a refused or reading call committed nothing.
   * A refusal as duplicate means that somebody else stored a row under the call's own id.
   */
  lemma RaceOutcome(steps: seq<Step>, c: Call)
    requires c in Exec(steps).sessions && Exec(steps).sessions[c].Done?
    ensures var s := Exec(steps); var out := s.sessions[c].outcome;
      && out != ZeroValue && out != NotFound
      && (out.Returned? ==> (out.isNew <==> CommittedSomething(s, c)))
      && (out == Duplicate ==> !CommittedSomething(s, c) && At(s.sessions[c].req.resource) in s.db.rows)
  {
    hide CommittedSomething, KeyOf;
    RunKeeps(steps);
    AllOrNothing(steps, c);
    var s := Exec(steps);
    hide Exec;
    assert SessionOK(s, c);
    if s.sessions[c].outcome.Returned? && s.sessions[c].outcome.isNew {
      assert KeyOK(s, KeyOf(s.sessions[c].req));
    }
  }

  /** Every successful caller of one key gets the same resource, wallets down to the last field. */
  lemma SameWinner(steps: seq<Step>, c: Call, d: Call)
    requires var s := Exec(steps); c in s.sessions && d in s.sessions && s.sessions[c].Done? && s.sessions[d].Done?
    requires var s := Exec(steps); KeyOf(s.sessions[c].req) == KeyOf(s.sessions[d].req)
    requires var s := Exec(steps); s.sessions[c].outcome.Returned? && s.sessions[d].outcome.Returned?
    ensures var s := Exec(steps); var r, q := s.sessions[c].outcome.resource, s.sessions[d].outcome.resource;
      && At(r) == At(q) && At(r) in s.db.rows && (r.AWallet? ==> r == q)
      && (s.sessions[c].outcome.isNew && s.sessions[d].outcome.isNew ==> c == d)
  {
    RunKeeps(steps);
    var s := Exec(steps);
    hide Exec, Scope;
    assert SessionOK(s, c) && SessionOK(s, d);
    var x, y := s.sessions[c].req, s.sessions[d].req;
    ScopeInjective(At(x.resource).kind, x.name, At(y.resource).kind, y.name);
  }

  /** In every reachable state the status column of every row says what its document says. */
  lemma StatusColumnAgrees(steps: seq<Step>, place: Place)
    requires place in Exec(steps).db.rows
    ensures var row := Exec(steps).db.rows[place]; row.status == StatusOf(row.doc) && At(row.doc) == place
  {
    RunKeeps(steps);
    assert RowOK(Exec(steps), place);
  }
}

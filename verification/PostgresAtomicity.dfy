/**
 * The Postgres calls of module PostgresRaces are linearizable: each takes effect indivisibly, at its
 * last statement, and what it then does and returns is what the store specification says.
 */
module PostgresAtomicity {
  import opened Types
  import opened PostgresRaces
  import StoreSpec
  import opened Guarantees

  /** What is visible to everybody. */
  datatype Tables = Tables(rows: map<Place, Resource>, keys: map<KeyName, string>)

  function Visible(db: Database): Tables {
    Tables(map p | p in db.rows :: db.rows[p].doc, map k | k in db.keys :: db.keys[k].resourceID)
  }

  /** The idempotent create as one indivisible step. */
  function CreateOnce(t: Tables, req: Creation): (Tables, Outcome) {
    if KeyOf(req) in t.keys then
      var place := Place(At(req.resource).kind, t.keys[KeyOf(req)]);
      (t, if place in t.rows then Returned(t.rows[place], false) else NotFound)
    else if At(req.resource) in t.rows then (t, Duplicate)
    else (Tables(t.rows[At(req.resource) := req.resource], t.keys[KeyOf(req) := At(req.resource).id]),
          Returned(req.resource, true))
  }

  /** AddApproval and MarkTransactionSigned as one indivisible step. */
  function RowOnce(t: Tables, op: RowOp): (Tables, RowOutcome) {
    var place := Place(Proposals, op.tx);
    if place !in t.rows || !t.rows[place].AProposal? then (t, Refused(TransactionNotFound))
    else
      var p := t.rows[place].proposal;
      match Refusal(op, p)
      case Some(out) => (t, out)
      case None => (t.(rows := t.rows[place := AProposal(Written(op, p))]), Wrote(Written(op, p)))
  }

  /** Between `s` and `t` call `c` finishes, having done all its work in this one step, or fails. */
  ghost predicate Atomically(s: State, t: State, n: Session) {
    var before, after := Visible(s.db), Visible(t.db);
    match n
    case Done(req, out) =>
      && (out.Returned? ==> (after, out) == CreateOnce(before, req))
      && (out == Failure ==> after == if t.db == s.db then before else CreateOnce(before, req).0)
      && (out == Duplicate ==>
            && after == before && At(req.resource) in before.rows
            && ((after, out) == CreateOnce(before, req) <==> KeyOf(req) !in before.keys))
    case RowDone(op, out) =>
      if out == Broke then after == if t.db == s.db then before else RowOnce(before, op).0
      else (after, out) == RowOnce(before, op)
    case _ => after == before
  }

  lemma PublishIsCreateOnce(db: Database, c: Call, req: Creation)
    requires At(req.resource) !in db.rows && KeyOf(req) !in db.keys
    ensures CreateOnce(Visible(db), req) == (Visible(Publish(db, c, req)), Returned(req.resource, true))
  {
    hide KeyOf, At;
    var t, u := Visible(Publish(db, c, req)), CreateOnce(Visible(db), req).0;
    assert t.rows == u.rows && t.keys == u.keys;
  }

  lemma CommitIsAtomic(s: State, c: Call, commit: CommitOutcome)
    requires Inv(s) && c in s.sessions && s.sessions[c].Keyed?
    ensures var t := DoCommit(s, c, s.sessions[c].req, commit); Atomically(s, t, t.sessions[c])
  {
    hide KeyOf;
    var req := s.sessions[c].req;
    assert SessionOK(s, c);
    hide Inv, Visible, CreateOnce;
    PublishIsCreateOnce(s.db, c, req);
  }

  lemma RewriteIsRowOnce(db: Database, op: RowOp, p: Proposal)
    requires Place(Proposals, op.tx) in db.rows && db.rows[Place(Proposals, op.tx)].doc == AProposal(p)
    requires p.id == op.tx && Refusal(op, p) == None
    ensures At(AProposal(Written(op, p))) == Place(Proposals, op.tx)
    ensures RowOnce(Visible(db), op) == (Visible(Rewrite(db, Written(op, p), op.Marking?)), Wrote(Written(op, p)))
  {
    hide Refusal;
    var q := Written(op, p);
    assert At(AProposal(q)) == Place(Proposals, op.tx);
    hide Written;
    var t, u := Visible(Rewrite(db, q, op.Marking?)), RowOnce(Visible(db), op).0;
    assert t.rows == u.rows && t.keys == u.keys;
  }

  lemma CommitRowIsAtomic(s: State, c: Call, commit: CommitOutcome)
    requires Inv(s) && c in s.sessions && s.sessions[c].Locked?
    ensures var t := DoCommitRow(s, c, s.sessions[c].op, s.sessions[c].snapshot, commit); Atomically(s, t, t.sessions[c])
  {
    var op, p := s.sessions[c].op, s.sessions[c].snapshot;
    assert SessionOK(s, c) && RowOK(s, Place(Proposals, op.tx));
    hide Inv, Visible, RowOnce, Rewrite, Written, Refusal;
    RewriteIsRowOnce(s.db, op, p);
  }

  lemma InsertIsAtomic(s: State, c: Call, req: Creation)
    requires c in s.sessions && s.sessions[c] == Missed(req)
    ensures var t := DoInsertRow(s, c, req); Atomically(s, t, t.sessions[c])
  {
    hide KeyOf, PlaceBusy;
  }

  lemma ReadIsAtomic(s: State, c: Call, req: Creation, id: string)
    requires Inv(s) && c in s.sessions && (s.sessions[c] == Found(req, id) || s.sessions[c] == Reread(req, id))
    ensures var t := DoReadRow(s, c, req, id); Atomically(s, t, t.sessions[c])
  {
    hide KeyOf;
    assert SessionOK(s, c);
    FoundOK(s, c, req, id);
  }

  /** A call's next statement shows nothing, unless it is the one that finishes the call. */
  lemma NextIsAtomic(s: State, c: Call, commit: CommitOutcome)
    requires Inv(s) && c in s.sessions && !s.sessions[c].Done? && !s.sessions[c].RowDone?
    ensures var t := DoNext(s, c, s.sessions[c], commit); c in t.sessions && Atomically(s, t, t.sessions[c])
  {
    hide KeyOf, Visible, CreateOnce, RowOnce, KeyOK, RowOK, Compatible;
    match s.sessions[c]
    case Begun(req) =>
    case Missed(req) => InsertIsAtomic(s, c, req);
    case Inserted(req) =>
    case Keyed(req) => CommitIsAtomic(s, c, commit);
    case Found(req, id) => ReadIsAtomic(s, c, req, id);
    case RolledBack(req) => assert SessionOK(s, c);
    case Reread(req, id) => ReadIsAtomic(s, c, req, id);
    case Locked(op, p) => CommitRowIsAtomic(s, c, commit);
  }

  lemma LockIsAtomic(s: State, c: Call, op: RowOp)
    requires Inv(s) && c !in s.sessions
    ensures var t := DoLock(s, c, op); c in t.sessions ==> Atomically(s, t, t.sessions[c])
  {
    if Place(Proposals, op.tx) in s.db.rows { assert RowOK(s, Place(Proposals, op.tx)); }
  }

  predicate Finished(s: State, c: Call) { c in s.sessions && (s.sessions[c].Done? || s.sessions[c].RowDone?) }

  /** Whoever finishes in a step did it atomically in that step. */
  lemma FinishIsAtomic(s: State, step: Step, c: Call)
    requires Inv(s) && Finished(Do(s, step), c) && !Finished(s, c)
    ensures Atomically(s, Do(s, step), Do(s, step).sessions[c])
  {
    hide KeyOf, Inv, Atomically;
    match step
    case Lock(d, op) => LockIsAtomic(s, c, op);
    case Next(d, commit) => NextIsAtomic(s, c, commit);
    case Break(d) => BreakIsAtomic(s, c);
  }

  lemma BreakIsAtomic(s: State, c: Call)
    requires c in s.sessions && !Finished(s, c)
    ensures var t := DoBreak(s, c, s.sessions[c]); Atomically(s, t, t.sessions[c])
  {
    hide KeyOf;
  }

  lemma FinishedStays(s: State, step: Step, c: Call)
    requires Finished(s, c)
    ensures Finished(Do(s, step), c) && Do(s, step).sessions[c] == s.sessions[c]
  {
    hide KeyOf, Rewrite;
  }

  /** Every finished call, in every run, took effect in one step of that run. */
  lemma {:induction false} Linearizable(steps: seq<Step>, c: Call) returns (i: nat)
    requires Finished(Exec(steps), c)
    ensures i < |steps| && !Finished(Exec(steps[..i]), c)
    ensures Atomically(Exec(steps[..i]), Exec(steps[..i + 1]), Exec(steps).sessions[c])
    decreases |steps|
  {
    hide Atomically, Do, Inv;
    var n := |steps| - 1;
    assert steps != [];
    var s, step := Exec(steps[..n]), steps[n];
    if Finished(s, c) {
      i := Linearizable(steps[..n], c);
      FinishedStays(s, step, c);
      assert steps[..n][..i] == steps[..i] && steps[..n][..i + 1] == steps[..i + 1];
    } else {
      i := n;
      RunKeeps(steps[..n]);
      FinishIsAtomic(s, step, c);
      assert steps[..n + 1] == steps;
    }
  }

  // ----- the one answer that can differ

  /** Call 0 misses the key, call 1 commits the same id and key, call 0 inserts. */
  function Overtaken(req: Creation): seq<Step> {
    var next := (c: Call) => Next(c, Acknowledged);
    [Begin(0, req), next(0), Begin(1, req), next(1), next(1), next(1), next(1), next(0)]
  }

  /** The database and the first call along that run. */
  lemma OvertakenRun(req: Creation, i: nat)
    requires i <= 8
    ensures var s := Exec(Overtaken(req)[..i]);
      && s.db == (if i < 7 then START.db else Publish(START.db, 1, req))
      && s.sessions == match i
           case 0 => map[]
           case 1 => map[0 := Begun(req)]
           case 2 => map[0 := Missed(req)]
           case 3 => map[0 := Missed(req), 1 := Begun(req)]
           case 4 => map[0 := Missed(req), 1 := Missed(req)]
           case 5 => map[0 := Missed(req), 1 := Inserted(req)]
           case 6 => map[0 := Missed(req), 1 := Keyed(req)]
           case 7 => map[0 := Missed(req), 1 := Done(req, Returned(req.resource, true))]
           case _ => map[0 := Done(req, Duplicate), 1 := Done(req, Returned(req.resource, true))]
  {
    hide KeyOf;
    if i > 0 {
      OvertakenRun(req, i - 1);
      var steps := Overtaken(req);
      assert steps[..i][..i - 1] == steps[..i - 1] && steps[..i][i - 1] == steps[i - 1];
    }
  }

  /**
   * A call whose id and key another call commits under its hands is refused as duplicate, although at
   * none of its statements would the indivisible create refuse it: that would return the resource.
   */
  lemma DuplicateIsNotAtomic(req: Creation)
    ensures var s := Exec(Overtaken(req)); 0 in s.sessions && s.sessions[0] == Done(req, Duplicate)
    ensures forall i :: 0 <= i <= |Overtaken(req)| ==>
      CreateOnce(Visible(Exec(Overtaken(req)[..i]).db), req).1 == Returned(req.resource, i < 7)
  {
    var steps := Overtaken(req);
    OvertakenRun(req, 8);
    assert steps[..8] == steps;
    forall i | 0 <= i <= 8
      ensures CreateOnce(Visible(Exec(steps[..i]).db), req).1 == Returned(req.resource, i < 7)
    {
      OvertakenRun(req, i);
    }
  }

  // ----- the same store as the one in memory

  /** The tables and the in-memory data hold the same wallets, proposals and idempotency keys. */
  ghost predicate Shows(t: Tables, s: StoreSpec.Store) {
    ShowsWallets(t.rows, s.wallets) && ShowsProposals(t.rows, s.transactions) && ShowsKeys(t.keys, s.idempotency)
  }

  ghost predicate ShowsWallets(rows: map<Place, Resource>, wallets: map<string, Wallet>) {
    && (forall id :: id in wallets ==> Place(Wallets, id) in rows && rows[Place(Wallets, id)] == AWallet(wallets[id]))
    && (forall id :: Place(Wallets, id) in rows ==> id in wallets)
  }

  ghost predicate ShowsProposals(rows: map<Place, Resource>, proposals: map<string, Proposal>) {
    && (forall id :: id in proposals ==> Place(Proposals, id) in rows && rows[Place(Proposals, id)] == AProposal(proposals[id]))
    && (forall id :: Place(Proposals, id) in rows ==> id in proposals)
  }

  /** Pairs of columns on one side, joined strings on the other; scopes hold no NUL. */
  ghost predicate ShowsKeys(keys: map<KeyName, string>, records: map<string, IdempotencyRecord>) {
    && (forall k :: k in keys ==> NulFree(k.0) && Joined(k) in records && records[Joined(k)].resourceID == keys[k])
    && (forall k: KeyName :: NulFree(k.0) && Joined(k) in records ==> k in keys)
  }

  function Joined(k: KeyName): string { StoreSpec.IdempotencyKey(k.0, k.1) }

  lemma ShowsNewKey(keys: map<KeyName, string>, records: map<string, IdempotencyRecord>, k: KeyName, r: IdempotencyRecord)
    requires ShowsKeys(keys, records) && NulFree(k.0)
    ensures ShowsKeys(keys[k := r.resourceID], records[Joined(k) := r])
  {
    forall j: KeyName | NulFree(j.0) && Joined(j) == Joined(k) ensures j == k {
      KeyInjective(j.0, j.1, k.0, k.1);
    }
    hide StoreSpec.IdempotencyKey, NulFree, Joined;
  }

  ghost predicate SameWallet(out: Outcome, r: Result<StoreSpec.Created<Wallet>, Error>) {
    match r
    case Ok(Created(w, isNew)) => out == Returned(AWallet(w), isNew)
    case Err(e) => out == if e == WalletNotFound then NotFound else Duplicate
  }

  ghost predicate SameProposal(out: Outcome, r: Result<StoreSpec.Created<Proposal>, Error>) {
    match r
    case Ok(Created(p, isNew)) => out == Returned(AProposal(p), isNew)
    case Err(e) => out == if e == TransactionNotFound then NotFound else Duplicate
  }

  lemma WalletCreateAgrees(t: Tables, s: StoreSpec.Store, w: Wallet, name: string, r: IdempotencyRecord)
    requires Shows(t, s) && r.scope == Scope(Wallets, name) && r.resourceID == w.id && NulFree(r.scope)
    ensures
      var (t', out) := CreateOnce(t, Creation(AWallet(w), name, r.key));
      var (s', res) := StoreSpec.CreateWalletOnce(s, w, r);
      Shows(t', s') && SameWallet(out, res)
  {
    hide StoreSpec.IdempotencyKey, NulFree, Scope;
    assert Joined((r.scope, r.key)) == StoreSpec.IdempotencyKey(r.scope, r.key);
    ShowsNewKey(t.keys, s.idempotency, (r.scope, r.key), r);
  }

  lemma ProposalCreateAgrees(t: Tables, s: StoreSpec.Store, p: Proposal, name: string, r: IdempotencyRecord)
    requires Shows(t, s) && r.scope == Scope(Proposals, name) && r.resourceID == p.id && NulFree(r.scope)
    ensures
      var (t', out) := CreateOnce(t, Creation(AProposal(p), name, r.key));
      var (s', res) := StoreSpec.CreateTransactionOnce(s, p, r);
      Shows(t', s') && SameProposal(out, res)
  {
    hide StoreSpec.IdempotencyKey, NulFree, Scope;
    assert Joined((r.scope, r.key)) == StoreSpec.IdempotencyKey(r.scope, r.key);
    ShowsNewKey(t.keys, s.idempotency, (r.scope, r.key), r);
  }

  lemma ApproveAgrees(t: Tables, s: StoreSpec.Store, tx: string, a: Approval)
    requires Shows(t, s)
    ensures
      var (t', out) := RowOnce(t, Approving(tx, a));
      var (s', res) := StoreSpec.AddApproval(s, tx, a);
      Shows(t', s') && out == if res.Ok? then Wrote(res.value) else Refused(res.error)
  {
    hide ShowsKeys;
  }

  lemma MarkAgrees(t: Tables, s: StoreSpec.Store, tx: string, signed: SignedTx, now: Time)
    requires Shows(t, s)
    ensures
      var (t', out) := RowOnce(t, Marking(tx, signed, now));
      var (s', res) := StoreSpec.MarkSigned(s, tx, signed, Some(now));
      && Shows(t', s')
      && out == match res
                case Ok((p, won)) => if won then Wrote(p) else Left(p)
                case Err(e) => Refused(e)
  {
    hide ShowsKeys;
  }
}

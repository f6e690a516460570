/**
 * What every step keeps about stored transactions and the calls that hold stale copies of them.
 * `Evolves` is the guarantee of a step; it composes, and the facts recorded about an in-flight
 * call survive it, so no step has to be compared with the other calls one by one.
 */
module Evolution {
  import opened Types
  import opened Setup
  import opened StoreSpec
  import opened Custody
  import Signer = Signing
  import opened Chains

  function Rows(s: System): map<string, Proposal> { s.world.store.transactions }

  ghost predicate RowEvolves(s: System, t: System, id: string)
    requires id in Rows(s)
  {
    && id in Rows(t)
    && SameIdentity(Rows(s)[id], Rows(t)[id])
    && Rank(Rows(s)[id].status) <= Rank(Rows(t)[id].status)
    && (Rows(s)[id].status.Signed? && Rows(t)[id].status.Signed? ==> Rows(s)[id] == Rows(t)[id])
    && Submap(GrantedTo(s, id), GrantedTo(t, id))
    && (!Rows(s)[id].status.Proposed? ==> GrantedTo(s, id) == GrantedTo(t, id))
  }

  ghost predicate RowsEvolve(s: System, t: System) {
    forall id :: id in Rows(s) ==> RowEvolves(s, t, id)
  }

  ghost predicate Evolves(s: System, t: System) {
    && RowsEvolve(s, t)
    && Submap(s.world.store.wallets, t.world.store.wallets)
    && Submap(s.world.store.idempotency, t.world.store.idempotency)
    && s.world.store.audit <= t.world.store.audit
    && Submap(s.world.records, t.world.records)
    && Submap(s.winners, t.winners)
    && Submap(s.grantee, t.grantee)
    && Submap(s.marker, t.marker)
  }

  lemma EvolvesTrans(s: System, t: System, u: System)
    requires Evolves(s, t) && Evolves(t, u)
    ensures Evolves(s, u)
  {
    forall id | id in Rows(s) ensures RowEvolves(s, u, id) {
      assert RowEvolves(s, t, id) && RowEvolves(t, u, id);
    }
  }

  // ----- invariant

  /** The signed text was made from exactly this proposal's payload with its wallet's key. */
  ghost predicate SignedOver(s: System, p: Proposal, signed: SignedTx) {
    && p.walletID in s.world.records
    && var key := s.world.records[p.walletID].key;
       if p.chain == EVM then Signer.SignEvm(p.raw, key) == Ok(signed)
       else signed.Envelope? && signed == Envelope(key, p.walletID, p.chain, p.raw, signed.salt)
  }

  /** Approvers are named, allowed by the policy, and recorded under their own name. */
  ghost predicate SignersOK(cfg: Config, approvals: map<string, Approval>) {
    forall k :: k in approvals ==> k != "" && SignerAllowed(cfg, k) && approvals[k].signerID == k
  }

  ghost predicate Won(s: System, id: string, signed: SignedTx) {
    id in s.winners && s.winners[id] == signed
  }

  ghost predicate RowOK(cfg: Config, s: System, id: string)
    requires id in Rows(s)
  {
    var p := Rows(s)[id];
    && p.id == id
    && SignersOK(cfg, GrantedTo(s, id))
    && Submap(p.approvals, GrantedTo(s, id))
    && (!p.status.Failed? ==> p.approvals == GrantedTo(s, id))
    && (!p.status.Proposed? ==> |p.approvals| >= 2)
    && (p.status.Proposed? ==> id !in s.winners && p.signed == Unsigned)
    && (p.status.Signed? || p.status.Broadcast? ==> Won(s, id, p.signed))
    && (p.status.Failed? ==> p.signed == Unsigned || Won(s, id, p.signed))
    && (id in s.winners ==> SignedOver(s, p, s.winners[id]))
  }

  /** What a snapshot of transaction `p.id` may be relied on for, however old it is. */
  ghost predicate SnapshotOK(s: System, p: Proposal) {
    && p.id in Rows(s)
    && SameIdentity(p, Rows(s)[p.id])
    && Submap(p.approvals, GrantedTo(s, p.id))
  }

  ghost predicate FlowOK(s: System, f: Flow) {
    && SnapshotOK(s, f.snapshot)
    && (f.Approved? ==> f.snapshot.status.Proposed? && f.snapshot.signed == Unsigned && f.signer in f.snapshot.approvals)
    && (f.Quorum? || f.Enveloped? ==>
          f.snapshot.status.Proposed? && f.snapshot.signed == Unsigned && |f.snapshot.approvals| >= 2)
    && (f.Enveloped? ==> SignedOver(s, f.snapshot, f.signed))
    && (f.Marked? ==> f.snapshot.id in s.winners)
    && (f.Loaded? || f.Submitted? || f.Recorded? ==>
          Won(s, f.snapshot.id, f.snapshot.signed) && |f.snapshot.approvals| >= 2)
    && (f.Loaded? || f.Submitted? ==>
          !Rows(s)[f.snapshot.id].status.Proposed? && f.snapshot.approvals == GrantedTo(s, f.snapshot.id))
    && (f.Broken? ==>
          && |f.snapshot.approvals| >= 2
          && (f.snapshot.signed == Unsigned || Won(s, f.snapshot.id, f.snapshot.signed)))
  }

  /** The history maps agree with each other and with the stored rows. */
  ghost predicate HistoryOK(s: System) {
    && s.granted.Keys == Rows(s).Keys
    && s.winners.Keys <= Rows(s).Keys
    && s.marker.Keys == s.winners.Keys
    && (forall k :: k in s.grantee ==> k.1 in GrantedTo(s, k.0))
  }

  ghost predicate Inv(cfg: Config, s: System) {
    && (forall id :: id in Rows(s) ==> RowOK(cfg, s, id))
    && (forall c :: c in s.active ==> FlowOK(s, s.active[c]))
    && HistoryOK(s)
  }

  lemma FlowStable(s: System, t: System, f: Flow)
    requires FlowOK(s, f) && Evolves(s, t)
    ensures FlowOK(t, f)
  {
    assert RowEvolves(s, t, f.snapshot.id);
  }

  /** Replacing one call's program counter is fine when the new one is accounted for. */
  lemma FlowsStable(s: System, t: System, c: Call)
    requires forall d :: d in s.active ==> FlowOK(s, s.active[d])
    requires Evolves(s, t)
    requires t.active.Keys <= s.active.Keys + {c}
    requires forall d :: d in t.active && d != c ==> t.active[d] == s.active[d]
    requires c in t.active ==> FlowOK(t, t.active[c])
    ensures forall d :: d in t.active ==> FlowOK(t, t.active[d])
  {
    hide *;
    forall d | d in t.active ensures FlowOK(t, t.active[d]) {
      if d != c {
        FlowStable(s, t, s.active[d]);
      }
    }
  }

  /** A row that is not written stays in order while the history and the key records grow. */
  lemma RowFrame(cfg: Config, s: System, t: System, id: string)
    requires id in Rows(s) && RowOK(cfg, s, id)
    requires id in Rows(t) && Rows(t)[id] == Rows(s)[id] && GrantedTo(t, id) == GrantedTo(s, id)
    requires id in t.winners <==> id in s.winners
    requires id in s.winners ==> t.winners[id] == s.winners[id]
    requires Submap(s.world.records, t.world.records)
    ensures RowOK(cfg, t, id) && RowEvolves(s, t, id)
  {
    hide SignersOK;
    SubmapRefl(GrantedTo(s, id));
  }

  lemma SubmapAdd<K(!new), V>(m: map<K, V>, k: K, v: V)
    requires k !in m
    ensures Submap(m, m[k := v])
  {}

  lemma SubmapRefl<K(!new), V>(m: map<K, V>)
    ensures Submap(m, m)
  {}

  ghost predicate SharedKept(s: System, t: System) {
    && t.world.store.wallets == s.world.store.wallets
    && t.world.store.idempotency == s.world.store.idempotency
    && t.world.store.audit == s.world.store.audit
    && t.world.records == s.world.records
  }

  ghost predicate OtherRowsKept(s: System, t: System, tx: string) {
    && tx in Rows(s) && Rows(t).Keys == Rows(s).Keys
    && (forall id :: id in Rows(s) && id != tx ==> Rows(t)[id] == Rows(s)[id] && GrantedTo(t, id) == GrantedTo(s, id))
  }

  ghost predicate HistoryGrows(s: System, t: System, tx: string) {
    && Submap(s.winners, t.winners) && t.winners.Keys <= s.winners.Keys + {tx}
    && Submap(s.grantee, t.grantee) && Submap(s.marker, t.marker)
  }

  ghost predicate OtherCallsKept(s: System, t: System, c: Call) {
    && t.active.Keys <= s.active.Keys + {c}
    && (forall d :: d in t.active && d != c ==> t.active[d] == s.active[d])
  }

  /** Only row `tx`, its history and call `c` differ between the two states. */
  ghost predicate OneRow(s: System, t: System, c: Call, tx: string) {
    SharedKept(s, t) && OtherRowsKept(s, t, tx) && HistoryGrows(s, t, tx) && OtherCallsKept(s, t, c)
  }

  ghost predicate SharedGrows(s: System, t: System) {
    && Submap(s.world.store.wallets, t.world.store.wallets)
    && Submap(s.world.store.idempotency, t.world.store.idempotency)
    && Submap(s.world.records, t.world.records)
    && s.world.store.audit <= t.world.store.audit
  }

  /** No row changes; call `c` may move, and the rest of the world may grow. */
  ghost predicate NoRow(s: System, t: System, c: Call) {
    && Rows(t) == Rows(s)
    && (t.granted == s.granted && t.winners == s.winners && t.grantee == s.grantee && t.marker == s.marker)
    && SharedGrows(s, t) && OtherCallsKept(s, t, c)
  }

  lemma QuietStep(cfg: Config, s: System, t: System, c: Call)
    requires Inv(cfg, s) && NoRow(s, t, c)
    requires c in t.active ==> FlowOK(t, t.active[c])
    ensures Evolves(s, t) && Inv(cfg, t)
  {
    hide RowOK, FlowOK, RowEvolves;
    forall id | id in Rows(t) ensures RowOK(cfg, t, id) && RowEvolves(s, t, id) {
      RowFrame(cfg, s, t, id);
    }
    FlowsStable(s, t, c);
  }

  lemma NoStep(cfg: Config, s: System, c: Call)
    requires Inv(cfg, s)
    ensures Evolves(s, s)
  {
    hide RowOK, FlowOK;
    QuietStep(cfg, s, s, c);
  }

  lemma EndStep(cfg: Config, s: System, c: Call, e: AuditEvent, live: bool)
    requires Inv(cfg, s)
    ensures var t := EndSigning(Log(s, e, live), c); Evolves(s, t) && Inv(cfg, t)
  {
    hide RowOK, FlowOK;
    QuietStep(cfg, s, EndSigning(Log(s, e, live), c), c);
  }

  /** Call `c` moves to `f`, perhaps after an audit event. */
  lemma MoveStep(cfg: Config, s: System, c: Call, f: Flow, e: AuditEvent, live: bool)
    requires Inv(cfg, s) && FlowOK(s, f)
    ensures var t := Log(s, e, live).(active := s.active[c := f]); Evolves(s, t) && Inv(cfg, t)
  {
    hide RowOK, FlowOK;
    var t := Log(s, e, live).(active := s.active[c := f]);
    assert FlowOK(t, f) by { LogFlow(s, t, f); }
    QuietStep(cfg, s, t, c);
  }

  lemma LogFlow(s: System, t: System, f: Flow)
    requires FlowOK(s, f)
    requires Rows(t) == Rows(s) && t.granted == s.granted && t.winners == s.winners && t.world.records == s.world.records
    ensures FlowOK(t, f)
  {}

  /** A blind overwrite from a snapshot that is accounted for. */
  lemma OverwriteRow(cfg: Config, s: System, t: System, q: Proposal)
    requires q.id in Rows(s) && RowOK(cfg, s, q.id) && SameIdentity(q, Rows(s)[q.id])
    requires Rank(q.status) == 2 && |q.approvals| >= 2 && Submap(q.approvals, GrantedTo(s, q.id))
    requires q.status.Broadcast? ==> Won(s, q.id, q.signed) && q.approvals == GrantedTo(s, q.id)
    requires q.signed == Unsigned || Won(s, q.id, q.signed)
    requires q.id in Rows(t) && Rows(t)[q.id] == q && t.granted == s.granted && t.winners == s.winners
    requires t.world.records == s.world.records
    ensures RowOK(cfg, t, q.id) && RowEvolves(s, t, q.id)
  {
    hide SignersOK;
    SubmapRefl(GrantedTo(s, q.id));
  }

  lemma OneRowStep(cfg: Config, s: System, t: System, c: Call, tx: string)
    requires Inv(cfg, s) && OneRow(s, t, c, tx) && HistoryOK(t)
    requires RowOK(cfg, t, tx) && RowEvolves(s, t, tx)
    requires c in t.active ==> FlowOK(t, t.active[c])
    ensures Evolves(s, t) && Inv(cfg, t)
  {
    hide RowOK, FlowOK, RowEvolves, HistoryOK;
    forall id | id in Rows(s) ensures RowOK(cfg, t, id) && RowEvolves(s, t, id) {
      if id != tx {
        SubmapRefl(s.world.records);
        RowFrame(cfg, s, t, id);
      }
    }
    FlowsStable(s, t, c);
  }

  lemma OverwriteFrame(s: System, t: System, c: Call, q: Proposal)
    requires HistoryOK(s) && q.id in Rows(s)
    requires t.world.store == s.world.store.(transactions := Rows(s)[q.id := q])
    requires t.world.records == s.world.records
    requires t.granted == s.granted && t.winners == s.winners && t.grantee == s.grantee && t.marker == s.marker
    requires c in t.active && t.active == s.active[c := t.active[c]]
    ensures OneRow(s, t, c, q.id) && HistoryOK(t)
  {
    hide Submap;
    SubmapRefl(s.winners);
    SubmapRefl(s.marker);
    SubmapRefl(s.grantee);
    assert Rows(t) == Rows(s)[q.id := q];
  }

  lemma OverwriteStep(cfg: Config, s: System, t: System, c: Call, q: Proposal)
    requires Inv(cfg, s)
    requires q.id in Rows(s) && SameIdentity(q, Rows(s)[q.id])
    requires Rank(q.status) == 2 && |q.approvals| >= 2 && Submap(q.approvals, GrantedTo(s, q.id))
    requires q.status.Broadcast? ==> Won(s, q.id, q.signed) && q.approvals == GrantedTo(s, q.id)
    requires q.signed == Unsigned || Won(s, q.id, q.signed)
    requires t == s.(active := t.active,
                     world := s.world.(store := s.world.store.(transactions := Rows(s)[q.id := q])))
    requires t.active == s.active[c := Recorded(q)] || t.active == s.active[c := Failing(q)]
    requires t.active[c].Recorded? ==> q.status.Broadcast?
    ensures Evolves(s, t) && Inv(cfg, t)
  {
    hide RowOK, RowEvolves, OneRow;
    OverwriteRow(cfg, s, t, q);
    OverwriteFrame(s, t, c, q);
    OneRowStep(cfg, s, t, c, q.id);
  }

  lemma ApprovalRow(cfg: Config, s: System, t: System, tx: string, a: Approval)
    requires tx in Rows(s) && RowOK(cfg, s, tx) && Rows(s)[tx].status.Proposed?
    requires a.signerID != "" && SignerAllowed(cfg, a.signerID) && a.signerID !in Rows(s)[tx].approvals
    requires tx in Rows(t) && Rows(t)[tx] == Approve(Rows(s)[tx], a)
    requires GrantedTo(t, tx) == GrantedTo(s, tx)[a.signerID := a]
    requires t.winners == s.winners && t.world.records == s.world.records
    ensures RowOK(cfg, t, tx) && RowEvolves(s, t, tx)
    ensures FlowOK(t, Approved(Rows(t)[tx], a.signerID))
    ensures a.signerID !in GrantedTo(s, tx)
  {}

  /** The effect of an accepted approval, part by part. */
  lemma ApprovalParts(cfg: Config, s: System, c: Call, tx: string, signer: string, now: Time, live: bool)
    requires Grants(cfg, s, c, tx, signer, now, live)
    ensures var t := DoApproval(cfg, s, c, tx, signer, now, live);
      && SharedKept(s, t) && t.winners == s.winners && t.marker == s.marker
      && tx in Rows(s) && Rows(t) == Rows(s)[tx := Approve(Rows(s)[tx], Approval(signer, now))]
      && t.granted == s.granted[tx := GrantedTo(s, tx)[signer := Approval(signer, now)]]
      && t.grantee == s.grantee[(tx, signer) := c]
      && c in t.active && t.active == s.active[c := t.active[c]]
  {
    hide SignerAllowed;
  }

  lemma ApprovalFrame(cfg: Config, s: System, c: Call, tx: string, signer: string, now: Time, live: bool)
    requires HistoryOK(s) && signer !in GrantedTo(s, tx)
    requires Grants(cfg, s, c, tx, signer, now, live)
    ensures OneRow(s, DoApproval(cfg, s, c, tx, signer, now, live), c, tx)
  {
    assert (tx, signer) !in s.grantee;
    hide HistoryOK, DoApproval, Grants, OneRow, SharedKept;
    ApprovalParts(cfg, s, c, tx, signer, now, live);
    var t := DoApproval(cfg, s, c, tx, signer, now, live);
    OneRowChanged(s, t, c, tx, (tx, signer), Rows(t)[tx], t.granted[tx]);
  }

  lemma OneRowChanged(s: System, t: System, c: Call, tx: string, k: (string, string), p: Proposal, g: map<string, Approval>)
    requires SharedKept(s, t) && t.winners == s.winners && t.marker == s.marker
    requires tx in Rows(s) && Rows(t) == Rows(s)[tx := p] && t.granted == s.granted[tx := g]
    requires k !in s.grantee && t.grantee == s.grantee[k := c]
    requires c in t.active && t.active == s.active[c := t.active[c]]
    ensures OneRow(s, t, c, tx)
  {
    hide Submap, SharedKept;
    SubmapAdd(s.grantee, k, c);
    SubmapRefl(s.winners);
    SubmapRefl(s.marker);
  }

  lemma ApprovalHistory(cfg: Config, s: System, c: Call, tx: string, signer: string, now: Time, live: bool)
    requires HistoryOK(s) && Grants(cfg, s, c, tx, signer, now, live)
    ensures HistoryOK(DoApproval(cfg, s, c, tx, signer, now, live))
  {}

  lemma ApprovalStep(cfg: Config, s: System, c: Call, tx: string, signer: string, now: Time, live: bool)
    requires Inv(cfg, s)
    ensures var t := DoApproval(cfg, s, c, tx, signer, now, live); Evolves(s, t) && Inv(cfg, t)
  {
    hide RowOK, FlowOK, RowEvolves;
    var t := DoApproval(cfg, s, c, tx, signer, now, live);
    if !Grants(cfg, s, c, tx, signer, now, live) {
      NoStep(cfg, s, c);
    } else {
      ApprovalRow(cfg, s, t, tx, Approval(signer, now));
      ApprovalFrame(cfg, s, c, tx, signer, now, live);
      ApprovalHistory(cfg, s, c, tx, signer, now, live);
      OneRowStep(cfg, s, t, c, tx);
    }
  }

  lemma MarkRow(cfg: Config, s: System, t: System, p: Proposal, signed: SignedTx, stamp: Option<Time>)
    requires p.id in Rows(s) && RowOK(cfg, s, p.id) && Rows(s)[p.id].status.Proposed?
    requires FlowOK(s, Enveloped(p, signed))
    requires p.id in Rows(t) && Rows(t)[p.id] == Seal(Rows(s)[p.id], signed, stamp)
    requires t.granted == s.granted && t.winners == s.winners[p.id := signed]
    requires t.world.records == s.world.records
    ensures RowOK(cfg, t, p.id) && RowEvolves(s, t, p.id)
    ensures FlowOK(t, Marked(Rows(t)[p.id])) && p.id !in s.winners
  {
    hide SignersOK, Signer.SignEvm;
    SubmapRefl(GrantedTo(s, p.id));
    SubmapSize(p.approvals, GrantedTo(s, p.id));
  }

  lemma {:induction false} SubmapSize<K(!new), V>(small: map<K, V>, big: map<K, V>)
    requires Submap(small, big)
    ensures |small| <= |big|
  {
    assert small.Keys <= big.Keys;
    SubsetSize(small.Keys, big.Keys);
  }

  lemma {:induction false} SubsetSize<K>(a: set<K>, b: set<K>)
    requires a <= b
    ensures |a| <= |b|
  {
    assert b == a + (b - a);
    assert |b| == |a| + |b - a|;
  }

  /** The effect of a winning mark, part by part. */
  lemma MarkParts(s: System, c: Call, p: Proposal, signed: SignedTx, stamp: Option<Time>, live: bool)
    requires Wins(s, p.id, live)
    ensures var t := DoMark(s, c, p, signed, stamp, live);
      && SharedKept(s, t) && t.granted == s.granted && t.grantee == s.grantee
      && Rows(t) == Rows(s)[p.id := Seal(Rows(s)[p.id], signed, stamp)]
      && t.winners == s.winners[p.id := signed] && t.marker == s.marker[p.id := c]
      && c in t.active && t.active == s.active[c := t.active[c]]
  {
    hide Seal;
  }

  lemma MarkFrame(s: System, c: Call, p: Proposal, signed: SignedTx, stamp: Option<Time>, live: bool)
    requires HistoryOK(s) && p.id !in s.winners && Wins(s, p.id, live)
    ensures OneRow(s, DoMark(s, c, p, signed, stamp, live), c, p.id)
  {
    assert p.id !in s.marker;
    MarkParts(s, c, p, signed, stamp, live);
    hide HistoryOK, DoMark, OneRow, SharedKept, Seal;
    var t := DoMark(s, c, p, signed, stamp, live);
    OneRowWon(s, t, c, p.id, Rows(t)[p.id], signed);
  }

  lemma OneRowWon(s: System, t: System, c: Call, tx: string, p: Proposal, signed: SignedTx)
    requires SharedKept(s, t) && t.granted == s.granted && t.grantee == s.grantee
    requires tx in Rows(s) && Rows(t) == Rows(s)[tx := p]
    requires tx !in s.winners && t.winners == s.winners[tx := signed] && tx !in s.marker && t.marker == s.marker[tx := c]
    requires c in t.active && t.active == s.active[c := t.active[c]]
    ensures OneRow(s, t, c, tx)
  {
    hide Submap, SharedKept;
    SubmapRefl(s.grantee);
    SubmapAdd(s.winners, tx, signed);
    SubmapAdd(s.marker, tx, c);
  }

  lemma MarkHistory(s: System, c: Call, p: Proposal, signed: SignedTx, stamp: Option<Time>, live: bool)
    requires HistoryOK(s) && Wins(s, p.id, live)
    ensures HistoryOK(DoMark(s, c, p, signed, stamp, live))
  {}

  lemma MarkStep(cfg: Config, s: System, c: Call, p: Proposal, signed: SignedTx, stamp: Option<Time>, live: bool)
    requires Inv(cfg, s) && FlowOK(s, Enveloped(p, signed))
    ensures var t := DoMark(s, c, p, signed, stamp, live); Evolves(s, t) && Inv(cfg, t)
  {
    hide RowOK, FlowOK, RowEvolves;
    var t := DoMark(s, c, p, signed, stamp, live);
    if !Wins(s, p.id, live) {
      EndStep(cfg, s, c, Event(TransactionSigned, "", p, 0), false);
    } else {
      MarkRow(cfg, s, t, p, signed, stamp);
      MarkFrame(s, c, p, signed, stamp, live);
      MarkHistory(s, c, p, signed, stamp, live);
      OneRowStep(cfg, s, t, c, p.id);
    }
  }

  // ----- every step

  lemma KeepRow(cfg: Config, s: System, t: System, p: Proposal)
    requires p.id in Rows(t) && Rows(t)[p.id] == p && GrantedTo(t, p.id) == map[] && p.id !in t.winners
    requires p.status.Proposed? && p.approvals == map[] && p.signed == Unsigned
    ensures RowOK(cfg, t, p.id)
  {}

  lemma KeepStep(cfg: Config, s: System, t: System, p: Proposal)
    requires Inv(cfg, s)
    requires p.id !in Rows(s) && Rows(t) == Rows(s)[p.id := p] && t.granted == s.granted[p.id := map[]]
    requires p.status.Proposed? && p.approvals == map[] && p.signed == Unsigned
    requires t.active == s.active && t.winners == s.winners && t.grantee == s.grantee && t.marker == s.marker
    requires t.world.store.wallets == s.world.store.wallets
    requires Submap(s.world.store.idempotency, t.world.store.idempotency)
    requires t.world.records == s.world.records && s.world.store.audit == t.world.store.audit
    ensures Evolves(s, t) && Inv(cfg, t)
  {
    hide RowOK, FlowOK, RowEvolves;
    forall id | id in Rows(t) ensures RowOK(cfg, t, id) && (id in Rows(s) ==> RowEvolves(s, t, id)) {
      if id == p.id {
        KeepRow(cfg, s, t, p);
      } else {
        SubmapRefl(s.world.records);
        RowFrame(cfg, s, t, id);
      }
    }
    assert Evolves(s, t);
    FlowsStable(s, t, 0) by {
      if 0 in t.active { FlowStable(s, t, s.active[0]); }
    }
  }

  /** Rows, signing calls and their history are untouched; the rest only grows. */
  ghost predicate CreationOnly(s: System, t: System) {
    && SharedGrows(s, t)
    && SigningKept(s, t)
  }

  ghost predicate SigningKept(s: System, t: System) {
    && Rows(t) == Rows(s) && t.active == s.active
    && t.granted == s.granted && t.winners == s.winners && t.grantee == s.grantee && t.marker == s.marker
  }

  lemma KeyWalletStep(cfg: Config, s: System, c: Call, id: string, chain: Chain, key: string, generated: Key, now: Time)
    requires Inv(cfg, s)
    ensures var t := DoKeyWallet(cfg, s, c, id, chain, key, generated, now); Evolves(s, t) && Inv(cfg, t)
  {
    hide Inv, Evolves;
    var t := DoKeyWallet(cfg, s, c, id, chain, key, generated, now);
    CreationMove(cfg, s, t);
  }

  /** A creation step that stores no proposal. */
  lemma CreationMove(cfg: Config, s: System, t: System)
    requires Inv(cfg, s) && CreationOnly(s, t)
    ensures Evolves(s, t) && Inv(cfg, t)
  {
    hide RowOK, FlowOK, SharedGrows;
    if 0 in t.active {
      LogFlowGrown(s, t, s.active[0]);
    }
    QuietStep(cfg, s, t, 0);
  }

  lemma LogFlowGrown(s: System, t: System, f: Flow)
    requires FlowOK(s, f)
    requires Rows(t) == Rows(s) && t.granted == s.granted && t.winners == s.winners && SharedGrows(s, t)
    ensures FlowOK(t, f)
  {}

  lemma StoreWalletStep(cfg: Config, s: System, c: Call, w: Wallet, key: string, now: Time, live: bool)
    requires Inv(cfg, s)
    ensures var t := DoStoreWallet(s, c, w, key, now, live); Evolves(s, t) && Inv(cfg, t)
  {
    hide Inv, Evolves;
    StoreWalletGrows(s, c, w, key, now, live);
    CreationMove(cfg, s, DoStoreWallet(s, c, w, key, now, live));
  }

  lemma StoreWalletGrows(s: System, c: Call, w: Wallet, key: string, now: Time, live: bool)
    ensures CreationOnly(s, DoStoreWallet(s, c, w, key, now, live))
  {
    hide Submap, IdempotencyKey, WalletScope;
    var t := DoStoreWallet(s, c, w, key, now, live);
    assert SigningKept(s, t);
    assert t.world.store.audit == s.world.store.audit && t.world.records == s.world.records;
    SubmapRefl(s.world.store.wallets);
    SubmapRefl(s.world.store.idempotency);
    SubmapRefl(s.world.records);
    if StoresWallet(s, w, key, live) {
      SubmapAdd(s.world.store.wallets, w.id, w);
      if key != "" {
        SubmapAdd(s.world.store.idempotency, IdempotencyKey(WalletScope(w.chain), key), WalletRecord(w, key, now));
      }
    }
  }

  lemma BuildStep(cfg: Config, s: System, c: Call, source: Wallet, r: Request, key: string, live: bool)
    requires Inv(cfg, s)
    ensures var t := DoBuildRaw(cfg, s, c, source, r, key, live); Evolves(s, t) && Inv(cfg, t)
  {
    hide Inv, Evolves;
    CreationMove(cfg, s, DoBuildRaw(cfg, s, c, source, r, key, live));
  }

  lemma StoreProposalStep(cfg: Config, s: System, c: Call, b: Creation, id: string, trace: map<string, string>, now: Time, live: bool)
    requires Inv(cfg, s) && b.RequestBuilt?
    ensures var t := DoStoreProposal(s, c, b, id, trace, now, live); Evolves(s, t) && Inv(cfg, t)
  {
    hide Inv, Evolves, Submap, Settle, IdempotencyKey, TransactionScope;
    var t := DoStoreProposal(s, c, b, id, trace, now, live);
    var p := NewProposal(id, b.source, b.request, b.raw, trace, now);
    SubmapRefl(s.world.store.idempotency);
    if Stores(s, b, id, live) {
      var k := IdempotencyKey(TransactionScope(b.request.walletID), b.key);
      if k !in s.world.store.idempotency {
        SubmapAdd(s.world.store.idempotency, k, ProposalRecord(p, b.key, now));
      }
      KeepStep(cfg, s, t, p);
    } else {
      SubmapRefl(s.world.store.wallets);
      SubmapRefl(s.world.records);
      CreationMove(cfg, s, t);
    }
  }

  lemma AuditCreationStep(cfg: Config, s: System, c: Call, e: AuditEvent, live: bool)
    requires Inv(cfg, s)
    ensures var t := EndCreation(Log(s, e, live), c); Evolves(s, t) && Inv(cfg, t)
  {
    hide Inv, Evolves;
    CreationMove(cfg, s, EndCreation(Log(s, e, live), c));
  }

  lemma LoadRequestStep(cfg: Config, s: System, c: Call, r: Request, key: string, live: bool)
    requires Inv(cfg, s)
    ensures var t := DoLoadRequest(cfg, s, c, r, key, live); Evolves(s, t) && Inv(cfg, t)
  {
    hide Inv, Evolves;
    CreationMove(cfg, s, DoLoadRequest(cfg, s, c, r, key, live));
  }

  lemma CreationStep(cfg: Config, s: System, x: Step)
    requires Inv(cfg, s) && IsCreation(x)
    ensures Evolves(s, DoCreation(cfg, s, x)) && Inv(cfg, DoCreation(cfg, s, x))
  {
    hide Inv, Evolves, DoKeyWallet, DoLoadRequest, DoStoreWallet, DoBuildRaw, DoStoreProposal, EndCreation, Log;
    NoStep(cfg, s, 0);
    if x.KeyWallet? {
      KeyWalletStep(cfg, s, x.c, x.id, x.chain, x.key, x.generated, x.now);
    } else if x.LoadRequest? {
      LoadRequestStep(cfg, s, x.c, x.request, x.key, x.live);
    } else if x.c in s.pending {
      var b := s.pending[x.c];
      match x
      case StoreWallet(c, now, live) => if b.WalletKeyed? { StoreWalletStep(cfg, s, c, b.wallet, b.key, now, live); }
      case BuildRaw(c, live) => if b.RequestLoaded? { BuildStep(cfg, s, c, b.source, b.request, b.key, live); }
      case StoreProposal(c, id, trace, now, live) => if b.RequestBuilt? { StoreProposalStep(cfg, s, c, b, id, trace, now, live); }
      case AuditCreation(c, now, live) =>
        if b.WalletStored? {
          AuditCreationStep(cfg, s, c, AuditEvent(WalletCreated, "", b.wallet.id, b.wallet.chain, now), live);
        } else if b.ProposalStored? {
          AuditCreationStep(cfg, s, c, Event(TransactionProposed, "", b.proposal, now), live);
        }
      case _ =>
    }
  }

  lemma SignStep(cfg: Config, s: System, c: Call, p: Proposal, salt: int, live: bool)
    requires Inv(cfg, s) && FlowOK(s, Quorum(p))
    ensures var t := DoSign(cfg, s, c, p, salt, live); Evolves(s, t) && Inv(cfg, t)
  {
    hide Inv, Evolves, Signer.SignEvm;
    var e := Event(TransactionSigned, "", p, 0);
    if !live {
      EndStep(cfg, s, c, e, false);
    } else {
      match Signer.Sign(cfg, s.world.records, p, salt)
      case Ok(signed) => MoveStep(cfg, s, c, Enveloped(p, signed), e, false);
      case Err(cause) => MoveStep(cfg, s, c, Broken(p, cause), e, false);
    }
  }

  lemma AuditApprovalStep(cfg: Config, s: System, c: Call, p: Proposal, signer: string, now: Time, live: bool)
    requires Inv(cfg, s) && FlowOK(s, Approved(p, signer))
    ensures var t := DoAuditApproval(s, c, p, signer, now, live); Evolves(s, t) && Inv(cfg, t)
  {
    hide Inv, Evolves;
    var e := Event(TransactionApproved, signer, p, now);
    if live && |p.approvals| >= 2 {
      MoveStep(cfg, s, c, Quorum(p), e, live);
    } else {
      EndStep(cfg, s, c, e, live);
    }
  }

  lemma CoSignStep(cfg: Config, s: System, x: Step)
    requires Inv(cfg, s) && IsCoSign(x)
    ensures Evolves(s, DoCoSign(cfg, s, x)) && Inv(cfg, DoCoSign(cfg, s, x))
  {
    hide Evolves, FlowOK, RowOK, HistoryOK, DoApproval, DoMark, DoSign, DoAuditApproval, EndSigning, Log;
    NoStep(cfg, s, 0);
    if x.GrantApproval? {
      ApprovalStep(cfg, s, x.c, x.tx, x.signer, x.now, x.live);
    } else if x.c in s.active {
      var f := s.active[x.c];
      match x
      case Mark(c, stamp, live) => if f.Enveloped? { MarkStep(cfg, s, c, f.snapshot, f.signed, stamp, live); }
      case AuditApproval(c, now, live) => if f.Approved? { AuditApprovalStep(cfg, s, c, f.snapshot, f.signer, now, live); }
      case SignQuorum(c, salt, live) => if f.Quorum? { SignStep(cfg, s, c, f.snapshot, salt, live); }
      case AuditSigned(c, now, live) => EndStep(cfg, s, c, Event(TransactionSigned, "", f.snapshot, now), live);
      case _ =>
    }
  }

  lemma LoadFlow(cfg: Config, s: System, tx: string)
    requires tx in Rows(s) && RowOK(cfg, s, tx) && Rows(s)[tx].status.Signed?
    ensures FlowOK(s, Loaded(Rows(s)[tx]))
  {}

  lemma LoadStep(cfg: Config, s: System, c: Call, tx: string, live: bool)
    requires Inv(cfg, s) && Loads(cfg, s, c, tx, live)
    ensures var t := DoLoad(cfg, s, c, tx, live); Evolves(s, t) && Inv(cfg, t)
  {
    hide Evolves, FlowOK, RowOK, HistoryOK;
    LoadFlow(cfg, s, tx);
    MoveStep(cfg, s, c, Loaded(Rows(s)[tx]), Event(TransactionSigned, "", Rows(s)[tx], 0), false);
  }

  lemma SubmitStep(cfg: Config, s: System, c: Call, p: Proposal, refusal: Option<string>, live: bool)
    requires Inv(cfg, s) && FlowOK(s, Loaded(p))
    ensures var t := DoSubmit(cfg, s, c, p, refusal, live); Evolves(s, t) && Inv(cfg, t)
  {
    hide Inv, Evolves, Send;
    var e := Event(TransactionSigned, "", p, 0);
    if !live {
      EndStep(cfg, s, c, e, false);
    } else {
      match Send(cfg, p, refusal)
      case Ok(hash) => MoveStep(cfg, s, c, Submitted(p, hash), e, false);
      case Err(cause) => MoveStep(cfg, s, c, Broken(p, cause), e, false);
    }
  }

  lemma RecordBroadcastStep(cfg: Config, s: System, c: Call, p: Proposal, hash: string, now: Time, live: bool)
    requires Inv(cfg, s) && FlowOK(s, Submitted(p, hash))
    ensures var t := DoRecordBroadcast(s, c, p, hash, now, live); Evolves(s, t) && Inv(cfg, t)
  {
    hide Inv, Evolves;
    if live {
      OverwriteStep(cfg, s, DoRecordBroadcast(s, c, p, hash, now, live), c, AsBroadcast(p, hash, now));
    } else {
      EndStep(cfg, s, c, Event(TransactionSigned, "", p, 0), false);
    }
  }

  lemma RecordFailureStep(cfg: Config, s: System, c: Call, p: Proposal, cause: string, now: Time, live: bool)
    requires Inv(cfg, s) && FlowOK(s, Broken(p, cause))
    ensures var t := DoRecordFailure(s, c, p, cause, now, live); Evolves(s, t) && Inv(cfg, t)
  {
    hide Inv, Evolves;
    var q := AsFailed(p, cause, now);
    if live {
      OverwriteStep(cfg, s, DoRecordFailure(s, c, p, cause, now, live), c, q);
    } else {
      MoveStep(cfg, s, c, Failing(q), Event(TransactionSigned, "", p, 0), false);
    }
  }

  lemma BroadcastStep(cfg: Config, s: System, x: Step)
    requires Inv(cfg, s)
    ensures Evolves(s, DoBroadcast(cfg, s, x)) && Inv(cfg, DoBroadcast(cfg, s, x))
  {
    hide Evolves, FlowOK, RowOK, HistoryOK, DoSubmit, DoRecordBroadcast, DoRecordFailure, EndSigning, Log;
    NoStep(cfg, s, 0);
    if x.Load? {
      if Loads(cfg, s, x.c, x.tx, x.live) {
        LoadStep(cfg, s, x.c, x.tx, x.live);
      }
    } else if x.c in s.active {
      var f := s.active[x.c];
      match x
      case Submit(c, refusal, live) => if f.Loaded? { SubmitStep(cfg, s, c, f.snapshot, refusal, live); }
      case RecordBroadcast(c, now, live) => if f.Submitted? { RecordBroadcastStep(cfg, s, c, f.snapshot, f.hash, now, live); }
      case RecordFailure(c, now, live) => if f.Broken? { RecordFailureStep(cfg, s, c, f.snapshot, f.cause, now, live); }
      case AuditBroadcast(c, now, live) => EndStep(cfg, s, c, Event(TransactionBroadcast, "", f.snapshot, now), live);
      case AuditFailure(c, now, live) => EndStep(cfg, s, c, Event(TransactionFailed, "", f.snapshot, now), live);
      case _ =>
    }
  }

  /** Every step of every call keeps the invariant and only moves the system forward. */
  lemma StepOK(cfg: Config, s: System, x: Step)
    requires Inv(cfg, s)
    ensures Evolves(s, Do(cfg, s, x)) && Inv(cfg, Do(cfg, s, x))
  {
    hide Inv, Evolves, DoCreation, DoCoSign, DoBroadcast;
    if IsCreation(x) {
      CreationStep(cfg, s, x);
    } else if IsCoSign(x) {
      CoSignStep(cfg, s, x);
    } else {
      BroadcastStep(cfg, s, x);
    }
  }
}

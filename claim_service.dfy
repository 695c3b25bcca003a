/**
 * Claim adjudication (internal/services/claim_service.go): one submission
 * is checked against the member and the procedure, decided, charged to the
 * member's benefit and recorded as exactly one claim, all inside one
 * transaction.
 *
 * Amounts are integer cents. Which statements the database refuses is an
 * input (`Faults`, `TxFaults`), so every error path is modelled.
 */
module ClaimService {
  import opened Common
  import opened Models
  import opened Ledger
  import MemberDomain
  import ProcedureDomain
  import ClaimDomain

  /** A claim is flagged when the requested amount exceeds this many times the procedure's average cost. */
  const FraudAmountMultiplier := 2

  const MemberNotFound := "Member not found"
  const MemberNotActive := "Member is not active"
  const UnknownProcedure := "Invalid or unknown procedure code"
  const BenefitExhausted := "Benefit limit exhausted"
  const PartialApproval := "Requested amount exceeds remaining benefit; approved up to remaining limit."

  /** The submission form (dtos.ClaimSubmissionForm). */
  datatype ClaimForm = ClaimForm(
    memberId: int,
    providerId: int,
    procedureCode: string,
    diagnosisCode: string,
    requestedAmount: int)

  /** The answer to a submission (dtos.ClaimSubmissionResponse). */
  datatype Response = Response(
    claimId: int,
    status: string,
    fraudFlag: bool,
    approvedAmount: int,
    rejectionReason: string)

  /** Which reads and writes of one submission the database refuses. */
  datatype Faults = Faults(memberRead: bool, procedureRead: bool, memberWrite: bool, claimWrite: bool)

  // ---------------------------------------------------------------------
  // The decision
  // ---------------------------------------------------------------------

  /** The outcome of adjudication before anything is written. */
  datatype Decision = Decision(status: ClaimStatus, approved: int, fraud: bool, reason: string)

  function Remaining(m: Member): int
  {
    m.benefitLimit - m.usedAmount
  }

  function Min(a: int, b: int): (m: int)
    ensures m <= a && m <= b && (m == a || m == b)
  {
    if a <= b then a else b
  }

  /** The fraud signal: the request is more than twice the procedure's average cost. */
  predicate Suspicious(requested: int, p: Procedure)
  {
    requested > p.averageCost * FraudAmountMultiplier
  }

  /**
   * `submitClaimInTx` up to the first write. `member` and `procedure` are
   * what the lookups found (`None` for a missing row or a failed read); the
   * procedure is only consulted once the member has passed.
   */
  function Decide(member: Option<Member>, procedure: Option<Procedure>, requested: int): (d: Decision)
    ensures d.status != Pending
    ensures d.status == Rejected ==> d.approved == 0
    ensures d.status != Rejected <==>
      member.Some? && member.value.isActive && procedure.Some? && Remaining(member.value) > 0
    ensures d.status != Rejected ==> d.approved == Min(requested, Remaining(member.value))
    ensures d.status == Partial <==> d.status != Rejected && requested > Remaining(member.value)
    ensures d.fraud <==> member.Some? && member.value.isActive && procedure.Some? && Suspicious(requested, procedure.value)
  {
    if member.None? then Decision(Rejected, 0, false, MemberNotFound)
    else if !member.value.isActive then Decision(Rejected, 0, false, MemberNotActive)
    else if procedure.None? then Decision(Rejected, 0, false, UnknownProcedure)
    else
      var fraudFlag := Suspicious(requested, procedure.value);
      var remaining := Remaining(member.value);
      if remaining <= 0 then Decision(Rejected, 0, fraudFlag, BenefitExhausted)
      else if requested <= remaining then Decision(Approved, requested, fraudFlag, "")
      else Decision(Partial, remaining, fraudFlag, PartialApproval)
  }

  /**
   * The rejections in the order they are checked, each approving nothing:
   * a missing member, an inactive one, an unknown procedure (none of them
   * flagged), and an exhausted benefit (flagged as the request deserves).
   */
  lemma RejectionOrder(member: Option<Member>, procedure: Option<Procedure>, requested: int)
    ensures var d := Decide(member, procedure, requested);
      && (member.None? ==> d == Decision(Rejected, 0, false, MemberNotFound))
      && (member.Some? && !member.value.isActive ==> d == Decision(Rejected, 0, false, MemberNotActive))
      && (member.Some? && member.value.isActive && procedure.None? ==>
            d == Decision(Rejected, 0, false, UnknownProcedure))
      && (member.Some? && member.value.isActive && procedure.Some? && Remaining(member.value) <= 0 ==>
            d == Decision(Rejected, 0, Suspicious(requested, procedure.value), BenefitExhausted))
  {
  }

  /**
   * Approval in full when the request fits the remaining benefit (equality
   * included), with no reason; otherwise partial approval of exactly the
   * remainder, with the partial-approval reason.
   */
  lemma ApprovalRule(member: Member, procedure: Procedure, requested: int)
    requires member.isActive && Remaining(member) > 0
    ensures var d := Decide(Some(member), Some(procedure), requested);
      && (requested <= Remaining(member) ==> d.status == Approved && d.approved == requested && d.reason == "")
      && (requested > Remaining(member) ==>
            d.status == Partial && d.approved == Remaining(member) && d.reason == PartialApproval)
  {
  }

  /** For a positive request, `0 <= approved <= requested`, and an accepted claim approves something but no more than remains. */
  lemma ApprovedBounds(member: Option<Member>, procedure: Option<Procedure>, requested: int)
    requires requested > 0
    ensures var d := Decide(member, procedure, requested);
      && 0 <= d.approved <= requested
      && (d.status != Rejected ==> 0 < d.approved <= Remaining(member.value))
  {
  }

  /** Charging the approved amount never takes a member past the benefit limit. */
  lemma ChargeWithinLimit(member: Member, procedure: Option<Procedure>, requested: int)
    requires member.usedAmount <= member.benefitLimit
    ensures var d := Decide(Some(member), procedure, requested);
      member.usedAmount + d.approved <= member.benefitLimit
  {
  }

  // ---------------------------------------------------------------------
  // The submission inside the transaction
  // ---------------------------------------------------------------------

  /** The claim row a decision produces: a new row (id zero) carrying the form and the decision. */
  function ClaimOf(form: ClaimForm, d: Decision): Claim
  {
    Claim(0, form.memberId, form.providerId, form.procedureCode, form.diagnosisCode,
          form.requestedAmount, d.approved, d.status, d.fraud, d.reason)
  }

  /** Stores the claim of a decision and answers with its assigned id and the decision. */
  function Record(t: Tables, form: ClaimForm, d: Decision, fault: bool): Outcome<Response>
  {
    var w := ClaimDomain.SaveClaim(t, ClaimOf(form, d), fault);
    if w.err.Some? then Outcome(Err(w.err.value), t)
    else Outcome(Ok(Response(w.record.id, StatusWire(d.status), d.fraud, d.approved, d.reason)), t.(claims := w.table))
  }

  /** What the lookups of a submission find. */
  function FoundMember(t: Tables, form: ClaimForm, f: Faults): Option<Member>
  {
    var (m, err) := MemberDomain.GetMemberByID(t, form.memberId, f.memberRead);
    if err.Some? then None else Some(m)
  }

  function FoundProcedure(t: Tables, form: ClaimForm, f: Faults): Option<Procedure>
  {
    var (p, err) := ProcedureDomain.GetProcedureByCode(t, form.procedureCode, f.procedureRead);
    if err.Some? then None else Some(p)
  }

  /**
   * `submitClaimInTx`: a rejection stores only the claim; an approval first
   * raises the member's used amount by the approved amount, then stores the
   * claim. The tables are those the work leaves, before commit or rollback.
   */
  function SubmitInTx(t: Tables, form: ClaimForm, f: Faults): Outcome<Response>
  {
    var member := FoundMember(t, form, f);
    var d := Decide(member, FoundProcedure(t, form, f), form.requestedAmount);
    if d.status == Rejected then Record(t, form, d, f.claimWrite)
    else Accept(t, form, member.value, d, f)
  }

  /** An accepted claim: the member is charged the approved amount, then the claim is stored. */
  function Accept(t: Tables, form: ClaimForm, member: Member, d: Decision, f: Faults): Outcome<Response>
  {
    var charged := member.(usedAmount := member.usedAmount + d.approved);
    var w := MemberDomain.SaveMember(t, charged, f.memberWrite);
    if w.err.Some? then Outcome(Err(w.err.value), t)
    else Record(t.(members := w.table), form, d, f.claimWrite)
  }

  /** `persistRejectedClaim`: records a rejection that approves nothing. */
  method PersistRejectedClaim(db: Database, form: ClaimForm, reason: string, fraudFlag: bool, fault: bool)
    returns (r: Result<Response>)
    modifies db
    ensures Outcome(r, db.tables) == Record(old(db.tables), form, Decision(Rejected, 0, fraudFlag, reason), fault)
  {
    var claim := Claim(0, form.memberId, form.providerId, form.procedureCode, form.diagnosisCode,
                       form.requestedAmount, 0, Rejected, fraudFlag, reason);
    var saved, err := ClaimDomain.CreateClaim(db, claim, fault);
    if err.Some? {
      return Err(err.value);
    }
    return Ok(Response(saved.id, "REJECTED", fraudFlag, 0, reason));
  }

  method SubmitClaimInTx(db: Database, form: ClaimForm, f: Faults) returns (r: Result<Response>)
    modifies db
    ensures Outcome(r, db.tables) == SubmitInTx(old(db.tables), form, f)
  {
    var (member, err) := MemberDomain.GetMemberByID(db.tables, form.memberId, f.memberRead);
    if err.Some? {
      r := PersistRejectedClaim(db, form, MemberNotFound, false, f.claimWrite);
      return;
    }
    if !member.isActive {
      r := PersistRejectedClaim(db, form, MemberNotActive, false, f.claimWrite);
      return;
    }
    var (procedure, procErr) := ProcedureDomain.GetProcedureByCode(db.tables, form.procedureCode, f.procedureRead);
    if procErr.Some? {
      r := PersistRejectedClaim(db, form, UnknownProcedure, false, f.claimWrite);
      return;
    }
    var fraudFlag := form.requestedAmount > procedure.averageCost * FraudAmountMultiplier;
    var remaining := member.benefitLimit - member.usedAmount;
    if remaining <= 0 {
      r := PersistRejectedClaim(db, form, BenefitExhausted, fraudFlag, f.claimWrite);
      return;
    }
    var status, approvedAmount, rejectionReason;
    if form.requestedAmount <= remaining {
      status, approvedAmount, rejectionReason := Approved, form.requestedAmount, "";
    } else {
      status, approvedAmount, rejectionReason := Partial, remaining, PartialApproval;
    }
    r := ChargeAndRecord(db, form, member, Decision(status, approvedAmount, fraudFlag, rejectionReason), f);
  }

  /** The accepted path of `submitClaimInTx`: update the member's used amount, then persist the claim. */
  method ChargeAndRecord(db: Database, form: ClaimForm, member: Member, d: Decision, f: Faults)
    returns (r: Result<Response>)
    modifies db
    ensures Outcome(r, db.tables) == Accept(old(db.tables), form, member, d, f)
  {
    var charged := member.(usedAmount := member.usedAmount + d.approved);
    var _, memberErr := MemberDomain.CreateMember(db, charged, f.memberWrite);
    if memberErr.Some? {
      return Err(memberErr.value);
    }
    var claim := Claim(0, form.memberId, form.providerId, form.procedureCode, form.diagnosisCode,
                       form.requestedAmount, d.approved, d.status, d.fraud, d.reason);
    var saved, claimErr := ClaimDomain.CreateClaim(db, claim, f.claimWrite);
    if claimErr.Some? {
      return Err(claimErr.value);
    }
    r := Ok(Response(saved.id, StatusWire(d.status), d.fraud, d.approved, d.reason));
  }

  // ---------------------------------------------------------------------
  // SubmitClaim: the transaction around it
  // ---------------------------------------------------------------------

  /** `SubmitClaim`: the work in one transaction, committed only if it succeeded. */
  function Submit(t: Tables, form: ClaimForm, f: Faults, tx: TxFaults): Outcome<Response>
  {
    if tx.begin then Outcome(Err(TransactionError("begin")), t)
    else Conclude(t, SubmitInTx(t, form, f), tx)
  }

  method SubmitClaim(db: Database, form: ClaimForm, f: Faults, tx: TxFaults) returns (r: Result<Response>)
    modifies db
    ensures Outcome(r, db.tables) == Submit(old(db.tables), form, f, tx)
  {
    if tx.begin {
      return Err(TransactionError("begin"));
    }
    var before := db.tables;
    var result := SubmitClaimInTx(db, form, f);
    r := ConcludeTransaction(db, before, result, tx);
  }

  // ---------------------------------------------------------------------
  // What a submission does to the ledger
  // ---------------------------------------------------------------------

  /** The member as charged for an accepted claim. */
  function Charged(m: Member, d: Decision): Member
  {
    m.(usedAmount := m.usedAmount + d.approved)
  }

  /** No member has used more than the benefit limit. */
  ghost predicate WithinLimits(t: Tables)
  {
    forall k :: k in t.members.rows ==> t.members.rows[k].usedAmount <= t.members.rows[k].benefitLimit
  }

  /** Storing the claim adds one row under the next id and answers with that id; a refused INSERT changes nothing. */
  lemma RecordEffect(t: Tables, form: ClaimForm, d: Decision, fault: bool)
    requires TablesValid(t)
    ensures var o := Record(t, form, d, fault);
      var id := t.claims.nextId;
      && TablesValid(o.tables)
      && (fault ==> o == Outcome(Err(DatabaseError("create claim")), t))
      && (!fault ==>
            && id !in t.claims.rows
            && o.result == Ok(Response(id, StatusWire(d.status), d.fraud, d.approved, d.reason))
            && o.tables == t.(claims := Table(t.claims.rows[id := ClaimOf(form, d).(id := id)], id + 1)))
  {
    assert "create " + "claim" == "create claim";
    SaveTouchesOnlyItsRow(t.claims, ClaimOf(form, d), ClaimId, ClaimWithId, fault, "claim");
  }

  /** An accepted claim rewrites the member's own row with the charged amount, then stores the claim. */
  lemma AcceptEffect(t: Tables, form: ClaimForm, member: Member, d: Decision, f: Faults)
    requires TablesValid(t)
    requires form.memberId in t.members.rows && member == t.members.rows[form.memberId]
    ensures var o := Accept(t, form, member, d, f);
      var id := t.claims.nextId;
      && (o.result.Err? <==> f.memberWrite || f.claimWrite)
      && (f.memberWrite ==> o.result == Err(DatabaseError("update member")))
      && (!f.memberWrite && f.claimWrite ==> o.result == Err(DatabaseError("create claim")))
      && (o.result.Ok? ==>
            && TablesValid(o.tables)
            && id !in t.claims.rows
            && o.result.value == Response(id, StatusWire(d.status), d.fraud, d.approved, d.reason)
            && o.tables == t.(members := t.members.(rows := t.members.rows[form.memberId := Charged(member, d)]),
                              claims := Table(t.claims.rows[id := ClaimOf(form, d).(id := id)], id + 1)))
  {
    assert member.id == form.memberId;
    assert "update " + "member" == "update member";
    SaveTouchesOnlyItsRow(t.members, Charged(member, d), MemberId, MemberWithId, f.memberWrite, "member");
    var w := MemberDomain.SaveMember(t, Charged(member, d), f.memberWrite);
    if !f.memberWrite {
      RecordEffect(t.(members := w.table), form, d, f.claimWrite);
    }
  }

  /**
   * The whole effect of `SubmitClaim` on a consistent database. A failure of
   * any write, of BEGIN or of COMMIT leaves every table as it was. A success
   * adds exactly one claim, under the next id, carrying the decision the
   * response reports; it rewrites the claimant's row with the used amount
   * raised by exactly the approved amount when the claim was accepted, and
   * leaves the members alone when it was rejected; nothing else changes.
   */
  lemma SubmitEffect(t: Tables, form: ClaimForm, f: Faults, tx: TxFaults)
    requires TablesValid(t)
    ensures var o := Submit(t, form, f, tx);
      var member := FoundMember(t, form, f);
      var d := Decide(member, FoundProcedure(t, form, f), form.requestedAmount);
      var id := t.claims.nextId;
      && TablesValid(o.tables)
      && (o.result.Err? <==>
            tx.begin || tx.commit || f.claimWrite || (d.status != Rejected && f.memberWrite))
      && (o.result.Err? ==> o.tables == t)
      && (o.result.Ok? ==>
            && id !in t.claims.rows
            && o.result.value == Response(id, StatusWire(d.status), d.fraud, d.approved, d.reason)
            && o.tables.claims == Table(t.claims.rows[id := ClaimOf(form, d).(id := id)], id + 1)
            && o.tables.members == (if d.status == Rejected then t.members
                                    else t.members.(rows := t.members.rows[form.memberId := Charged(member.value, d)]))
            && o.tables.procedures == t.procedures
            && o.tables.providers == t.providers
            && o.tables.users == t.users)
  {
    var member := FoundMember(t, form, f);
    var d := Decide(member, FoundProcedure(t, form, f), form.requestedAmount);
    if d.status == Rejected {
      RecordEffect(t, form, d, f.claimWrite);
    } else {
      AcceptEffect(t, form, member.value, d, f);
    }
    if !tx.begin {
      ConcludeIsAtomic(t, SubmitInTx(t, form, f), tx);
    }
  }

  /** Adjudication never charges a member past the benefit limit: the ledger invariant survives every submission. */
  lemma SubmitKeepsWithinLimits(t: Tables, form: ClaimForm, f: Faults, tx: TxFaults)
    requires TablesValid(t) && WithinLimits(t)
    ensures WithinLimits(Submit(t, form, f, tx).tables)
  {
    SubmitEffect(t, form, f, tx);
    var o := Submit(t, form, f, tx);
    var member := FoundMember(t, form, f);
    var procedure := FoundProcedure(t, form, f);
    var d := Decide(member, procedure, form.requestedAmount);
    if o.result.Ok? && d.status != Rejected {
      ChargeWithinLimit(member.value, procedure, form.requestedAmount);
    }
  }

  /**
   * The response describes the row it reports: the stored claim under
   * `claimId` has the reported status, approved amount, fraud flag and
   * reason, and the form's member, provider, codes and requested amount.
   */
  lemma ResponseDescribesStoredClaim(t: Tables, form: ClaimForm, f: Faults, tx: TxFaults)
    requires TablesValid(t)
    ensures var o := Submit(t, form, f, tx);
      o.result.Ok? ==>
        var r := o.result.value;
        && r.claimId !in t.claims.rows
        && r.claimId in o.tables.claims.rows
        && |o.tables.claims.rows| == |t.claims.rows| + 1
        && var c := o.tables.claims.rows[r.claimId];
        && c.id == r.claimId
        && StatusWire(c.status) == r.status
        && c.approvedAmount == r.approvedAmount
        && c.fraudFlag == r.fraudFlag
        && c.rejectionReason == r.rejectionReason
        && c.memberId == form.memberId && c.providerId == form.providerId
        && c.procedureCode == form.procedureCode && c.diagnosisCode == form.diagnosisCode
        && c.requestedAmount == form.requestedAmount
  {
    SubmitEffect(t, form, f, tx);
  }

  // ---------------------------------------------------------------------
  // CreateClaim: a claim recorded for later review
  // ---------------------------------------------------------------------

  function PendingClaim(form: ClaimForm): Claim
  {
    Claim(0, form.memberId, form.providerId, form.procedureCode, form.diagnosisCode,
          form.requestedAmount, 0, Pending, false, "")
  }

  /** Stores the form as a new PENDING claim, unflagged and approving nothing, outside any transaction. */
  method CreateClaim(db: Database, form: ClaimForm, fault: bool) returns (r: Result<Claim>)
    modifies db
    ensures var w := ClaimDomain.SaveClaim(old(db.tables), PendingClaim(form), fault);
      && db.tables == old(db.tables).(claims := w.table)
      && (fault ==> r == Err(DatabaseError("create claim")))
      && (!fault ==> r == Ok(w.record))
  {
    var claim := Claim(0, form.memberId, form.providerId, form.procedureCode, form.diagnosisCode,
                       form.requestedAmount, 0, Pending, false, "");
    assert "create " + "claim" == "create claim";
    var saved, err := ClaimDomain.CreateClaim(db, claim, fault);
    if err.Some? {
      return Err(err.value);
    }
    return Ok(saved);
  }
}

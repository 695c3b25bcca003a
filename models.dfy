/**
 * The records the service stores (internal/models) and the claim status
 * vocabulary. Amounts are integer cents. Creation and update timestamps are
 * not modelled.
 */
module Models {
  import opened Common

  /**
   * Claim statuses. The service writes upper-case strings; the lower-case
   * constants of the custom_types package are a second, unused vocabulary.
   */
  datatype ClaimStatus = Pending | Approved | Partial | Rejected

  /** The status string the claim service stores and returns. */
  function StatusWire(s: ClaimStatus): string
  {
    match s
    case Pending => "PENDING"
    case Approved => "APPROVED"
    case Partial => "PARTIAL"
    case Rejected => "REJECTED"
  }

  /** Reads a stored status string back; unknown spellings are not a status. */
  function ParseStatus(w: string): Option<ClaimStatus>
  {
    if w == "PENDING" then Some(Pending)
    else if w == "APPROVED" then Some(Approved)
    else if w == "PARTIAL" then Some(Partial)
    else if w == "REJECTED" then Some(Rejected)
    else None
  }

  /** The lower-case constants declared in custom_types; there is none for PENDING. */
  function DomainConstant(s: ClaimStatus): Option<string>
  {
    match s
    case Pending => None
    case Approved => Some("approved")
    case Partial => Some("partial")
    case Rejected => Some("rejected")
  }

  lemma StatusWireRoundTrip(s: ClaimStatus)
    ensures ParseStatus(StatusWire(s)) == Some(s)
  {
  }

  /** The custom_types constants never equal what the service writes. */
  lemma DomainConstantsAreNotWireStrings(s: ClaimStatus, t: ClaimStatus)
    ensures DomainConstant(s) != Some(StatusWire(t))
    ensures DomainConstant(s).Some? ==> ParseStatus(DomainConstant(s).value) == None
  {
  }

  datatype Member = Member(id: int, fullName: string, isActive: bool, benefitLimit: int, usedAmount: int)

  datatype Procedure = Procedure(id: int, code: string, description: string, averageCost: int)

  datatype Provider = Provider(id: int, name: string, location: string)

  datatype User = User(id: int, username: string, email: string, passwordHash: string, isActive: bool)

  datatype Claim = Claim(
    id: int,
    memberId: int,
    providerId: int,
    procedureCode: string,
    diagnosisCode: string,
    requestedAmount: int,
    approvedAmount: int,
    status: ClaimStatus,
    fraudFlag: bool,
    rejectionReason: string)

  /** The zero values `&models.Member{}` and `&models.Procedure{}` that a failed scan returns. */
  const EmptyMember := Member(0, "", false, 0, 0)
  const EmptyProcedure := Procedure(0, "", "", 0)

  // Identifier accessors, used by the generic table operations.
  function MemberId(m: Member): int { m.id }
  function MemberWithId(m: Member, id: int): Member { m.(id := id) }
  function ProcedureId(p: Procedure): int { p.id }
  function ProcedureWithId(p: Procedure, id: int): Procedure { p.(id := id) }
  function ProviderId(p: Provider): int { p.id }
  function ProviderWithId(p: Provider, id: int): Provider { p.(id := id) }
  function UserId(u: User): int { u.id }
  function UserWithId(u: User, id: int): User { u.(id := id) }
  function ClaimId(c: Claim): int { c.id }
  function ClaimWithId(c: Claim, id: int): Claim { c.(id := id) }
}

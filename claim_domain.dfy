/**
 * The claims table (internal/domain/claim._domain.go): the upsert the
 * adjudication writes through, the filter-to-SQL builder, and the listing
 * and count that build from an unpaged copy of the filter.
 */
module ClaimDomain {
  import opened Common
  import opened Models
  import opened Ledger
  import opened Filters
  import opened Strings
  import opened QueryBuilder

  const GetClaimsSql := "SELECT id, member_id, provider_id, procedure_code, diagnosis_code, requested_amount, approved_amount, status, fraud_flag, rejection_reason, created_at, updated_at FROM claims"
  const GetClaimsCountSql := "SELECT COUNT(*) FROM claims"

  /** The text columns a search term is matched against, in order. */
  const SearchColumns := ["procedure_code", "diagnosis_code", "rejection_reason"]

  // ---------------------------------------------------------------------
  // CreateClaim
  // ---------------------------------------------------------------------

  function SaveClaim(t: Tables, claim: Claim, fault: bool): Write<Claim>
  {
    Save(t.claims, claim, ClaimId, ClaimWithId, fault, "claim")
  }

  /**
   * A claim without an id is inserted and comes back with the id the table
   * assigned; a claim with an id overwrites the row with that id. If the
   * database refuses the statement nothing changes.
   */
  method CreateClaim(db: Database, claim: Claim, fault: bool) returns (saved: Claim, err: Option<AppError>)
    modifies db
    ensures var w := SaveClaim(old(db.tables), claim, fault);
      db.tables == old(db.tables).(claims := w.table) && saved == w.record && err == w.err
    ensures old(db.Valid()) ==> db.Valid()
  {
    var t := db.tables.claims;
    assert "create " + "claim" == "create claim" && "update " + "claim" == "update claim";
    if claim.id == 0 {
      if fault {
        return claim, Some(DatabaseError("create claim"));
      }
      saved := claim.(id := t.nextId);
      db.tables := db.tables.(claims := Table(t.rows[t.nextId := saved], t.nextId + 1));
      err := None;
    } else {
      if fault {
        return claim, Some(DatabaseError("update claim"));
      }
      if claim.id in t.rows {
        db.tables := db.tables.(claims := t.(rows := t.rows[claim.id := claim]));
      }
      saved, err := claim, None;
    }
    if old(db.Valid()) {
      UpsertKeepsValid(t, claim, ClaimId, ClaimWithId);
    }
  }

  // ---------------------------------------------------------------------
  // buildQuery
  // ---------------------------------------------------------------------

  /** The equality filters a claim listing applies: member, then provider, each when set. */
  function ClaimFilters(memberId: Option<string>, providerId: Option<string>): (eqs: seq<(string, string)>)
    ensures |eqs| == (if memberId.Some? then 1 else 0) + (if providerId.Some? then 1 else 0)
  {
    (if memberId.Some? then [("member_id", memberId.value)] else [])
      + (if providerId.Some? then [("provider_id", providerId.value)] else [])
  }

  /** The statement `buildQuery` makes of `query` under a filter's criteria and paging. */
  function ClaimListing(query: string, memberId: Option<string>, providerId: Option<string>, term: string,
                        page: int, per: int): SqlQuery
  {
    Listing(query, ClaimFilters(memberId, providerId), SearchColumns, term, page, per, true)
  }

  method BuildQuery(query: string, filter: Filter) returns (q: SqlQuery)
    ensures q == ClaimListing(query, filter.memberId, filter.providerId, filter.term, filter.page, filter.per)
  {
    var conditions: seq<string> := [];
    var args: seq<Arg> := [];
    var counter: nat := 0;
    ghost var eqs: seq<(string, string)> := [];
    if filter.memberId.Some? {
      conditions, args, counter := AppendEquality(conditions, args, counter, "member_id", filter.memberId.value);
      EqualitySnoc(eqs, "member_id", filter.memberId.value);
      eqs := eqs + [("member_id", filter.memberId.value)];
    }
    if filter.providerId.Some? {
      conditions, args, counter := AppendEquality(conditions, args, counter, "provider_id", filter.providerId.value);
      EqualitySnoc(eqs, "provider_id", filter.providerId.value);
      eqs := eqs + [("provider_id", filter.providerId.value)];
    }
    assert eqs == ClaimFilters(filter.memberId, filter.providerId);
    q := SearchAndFinish(eqs, query, conditions, args, counter, SearchColumns, filter.term, true, filter.page, filter.per);
  }

  /**
   * Placeholders versus arguments: after those of the base statement, the
   * statement carries `$1 ... $n` once each and in order, `n` being the
   * number of bound arguments; the claim statements have none of their own.
   */
  lemma QueryPlaceholders(query: string, memberId: Option<string>, providerId: Option<string>, term: string,
                          page: int, per: int)
    ensures var q := ClaimListing(query, memberId, providerId, term, page, per);
      Placeholders(q.text) == Placeholders(query) + Range(1, |q.args|)
  {
    var eqs := ClaimFilters(memberId, providerId);
    assert forall i :: 0 <= i < |eqs| ==> PlainColumn(eqs[i].0) by {
      assert PlainColumn("member_id") && PlainColumn("provider_id");
    }
    assert forall c :: c in SearchColumns ==> PlainColumn(c) by {
      assert PlainColumn("procedure_code") && PlainColumn("diagnosis_code") && PlainColumn("rejection_reason");
    }
    ListingPlaceholders(query, eqs, SearchColumns, term, page, per, true);
  }

  /**
   * Clause order: the member condition, then the provider condition, then
   * the search group, numbered in that order.
   */
  lemma QueryConditions(memberId: Option<string>, providerId: Option<string>, term: string)
    ensures var eqs := ClaimFilters(memberId, providerId);
      var m := if memberId.Some? then 1 else 0;
      Conditions(eqs, SearchColumns, term)
        == (if memberId.Some? then [Equality("member_id", 1)] else [])
         + (if providerId.Some? then [Equality("provider_id", m + 1)] else [])
         + (if term == "" then [] else [TermGroup(SearchColumns, |eqs| + 1)])
  {
    var eqs := ClaimFilters(memberId, providerId);
    SearchStep(eqs, SearchColumns, term);
  }

  /** The values are bound in the same order: member, provider, then the lower-cased term once per column. */
  lemma QueryArguments(query: string, memberId: Option<string>, providerId: Option<string>, term: string,
                       page: int, per: int)
    ensures var eqs := ClaimFilters(memberId, providerId);
      var q := ClaimListing(query, memberId, providerId, term, page, per);
      var m := if memberId.Some? then 1 else 0;
      && (memberId.Some? ==> q.args[0] == Text(memberId.value))
      && (providerId.Some? ==> q.args[m] == Text(providerId.value))
      && (term != "" ==> q.args[|eqs|..|eqs| + 3] == Repeat(Text(ToLower(term)), 3))
  {
    var eqs := ClaimFilters(memberId, providerId);
    ListingShape(query, eqs, SearchColumns, term, page, per, true);
  }

  /** The search group is exactly three LIKE clauses, on the three text columns in order, OR'ed together. */
  lemma SearchGroup(k: nat)
    ensures TermGroup(SearchColumns, k) == " (" + Join(
      [LikeClause("procedure_code", k), LikeClause("diagnosis_code", k + 1), LikeClause("rejection_reason", k + 2)],
      " OR ") + ")"
    ensures TermGroup(SearchColumns, k) == " (" + LikeClause("procedure_code", k) + " OR "
      + LikeClause("diagnosis_code", k + 1) + " OR " + LikeClause("rejection_reason", k + 2) + ")"
  {
    TermGroupOfThree("procedure_code", "diagnosis_code", "rejection_reason", k);
    JoinOfThree(LikeClause("procedure_code", k), LikeClause("diagnosis_code", k + 1),
      LikeClause("rejection_reason", k + 2), " OR ");
  }

  // ---------------------------------------------------------------------
  // GetClaims / GetClaimsCount
  // ---------------------------------------------------------------------

  /**
   * The listing: the member id (empty meaning none) is written into the
   * caller's filter, the statement is built from an unpaged copy, and the
   * rows are collected. `respond` is the database: no result set on a
   * failed query, otherwise one entry per row, `None` where a row fails to
   * scan.
   */
  method GetClaims(memberId: string, filter: Filter, respond: SqlQuery -> Option<seq<Option<Claim>>>)
    returns (claims: seq<Claim>, err: Option<AppError>)
    modifies filter`memberId
    ensures filter.memberId == NullValue(memberId)
    ensures var q := ClaimListing(GetClaimsSql, NullValue(memberId), filter.providerId, filter.term, 0, 0);
      && (respond(q).None? ==> claims == [] && err == Some(DatabaseError("claims query")))
      && (respond(q).Some? ==>
            && (err.None? <==> AllScanned(respond(q).value))
            && (err.None? ==> claims == ScannedValues(respond(q).value))
            && (err.Some? ==> claims == [] && err == Some(DatabaseError("scan row"))))
  {
    filter.memberId := NullValue(memberId);
    var unpaged := filter.NoPagination();
    var q := BuildQuery(GetClaimsSql, unpaged);
    var rows := respond(q);
    if rows.None? {
      return [], Some(DatabaseError("claims query"));
    }
    claims, err := CollectRows(rows.value);
  }

  /** The count: the same criteria on the count statement, never paged. */
  method GetClaimsCount(memberId: string, filter: Filter, count: SqlQuery -> Option<int>)
    returns (n: int, err: Option<AppError>)
    modifies filter`memberId
    ensures filter.memberId == NullValue(memberId)
    ensures var q := ClaimListing(GetClaimsCountSql, NullValue(memberId), filter.providerId, filter.term, 0, 0);
      && (count(q).None? ==> n == 0 && err == Some(DatabaseError("claims count")))
      && (count(q).Some? ==> n == count(q).value && err.None?)
  {
    filter.memberId := NullValue(memberId);
    var unpaged := filter.NoPagination();
    var q := BuildQuery(GetClaimsCountSql, unpaged);
    var c := count(q);
    if c.None? {
      return 0, Some(DatabaseError("claims count"));
    }
    return c.value, None;
  }

  /**
   * The statements of the listing and the count carry no LIMIT/OFFSET:
   * whatever the caller's paging, they are the base statement plus the
   * WHERE clause, with only the condition values bound.
   */
  lemma UnpagedListing(query: string, memberId: Option<string>, providerId: Option<string>, term: string)
    ensures var eqs := ClaimFilters(memberId, providerId);
      var q := ClaimListing(query, memberId, providerId, term, 0, 0);
      && q.text == query + WhereClause(Conditions(eqs, SearchColumns, term))
      && q.args == ConditionArgs(eqs, SearchColumns, term)
      && |q.args| == |eqs| + (if term == "" then 0 else 3)
  {
  }
}

/**
 * The members table (internal/domain/member_domain.go): the upsert that
 * records a member's used benefit, the lookup by id, the search builder and
 * the unpaged listing and count.
 */
module MemberDomain {
  import opened Common
  import opened Models
  import opened Ledger
  import opened Filters
  import opened Strings
  import opened QueryBuilder

  const GetMembersSql := "SELECT id, full_name, is_active, benefit_limit, used_amount, created_at, updated_at FROM members"
  const GetMembersCountSql := "SELECT COUNT(*) FROM members"

  /** The text columns a search term is matched against. */
  const SearchColumns := ["full_name"]

  // ---------------------------------------------------------------------
  // CreateMember
  // ---------------------------------------------------------------------

  function SaveMember(t: Tables, member: Member, fault: bool): Write<Member>
  {
    Save(t.members, member, MemberId, MemberWithId, fault, "member")
  }

  /**
   * A member without an id is inserted with its name, active flag, limit and
   * used amount, and comes back with the assigned id; a member with an id
   * overwrites all four columns of the row with that id. If the database
   * refuses the statement nothing changes.
   */
  method CreateMember(db: Database, member: Member, fault: bool) returns (saved: Member, err: Option<AppError>)
    modifies db
    ensures var w := SaveMember(old(db.tables), member, fault);
      db.tables == old(db.tables).(members := w.table) && saved == w.record && err == w.err
    ensures old(db.Valid()) ==> db.Valid()
  {
    var t := db.tables.members;
    assert "create " + "member" == "create member" && "update " + "member" == "update member";
    if member.id == 0 {
      if fault {
        return member, Some(DatabaseError("create member"));
      }
      saved := member.(id := t.nextId);
      db.tables := db.tables.(members := Table(t.rows[t.nextId := saved], t.nextId + 1));
      err := None;
    } else {
      if fault {
        return member, Some(DatabaseError("update member"));
      }
      if member.id in t.rows {
        db.tables := db.tables.(members := t.(rows := t.rows[member.id := member]));
      }
      saved, err := member, None;
    }
    if old(db.Valid()) {
      UpsertKeepsValid(t, member, MemberId, MemberWithId);
    }
  }

  // ---------------------------------------------------------------------
  // GetMemberByID
  // ---------------------------------------------------------------------

  /**
   * The row with that id. A missing row and a failed read both surface as
   * the scan error, returned together with a zero member rather than none.
   */
  function GetMemberByID(t: Tables, id: int, fault: bool): (r: (Member, Option<AppError>))
    ensures r.1.None? <==> !fault && id in t.members.rows
    ensures r.1.None? ==> r.0 == t.members.rows[id]
    ensures r.1.Some? ==> r.0 == EmptyMember && r.1 == Some(DatabaseError("scan row"))
  {
    if !fault && id in t.members.rows then (t.members.rows[id], None)
    else (EmptyMember, Some(DatabaseError("scan row")))
  }

  /**
   * In a consistent database a found member carries the id it was asked for,
   * while the zero member that comes with an error is no stored member.
   */
  lemma GetMemberByIDIdentifies(t: Tables, id: int, fault: bool)
    requires TablesValid(t)
    ensures var (m, err) := GetMemberByID(t, id, fault);
      && (err.None? ==> m.id == id && id >= 1)
      && (err.Some? ==> m.id !in t.members.rows)
  {
  }

  // ---------------------------------------------------------------------
  // buildQuery
  // ---------------------------------------------------------------------

  function MemberListing(query: string, term: string, page: int, per: int): SqlQuery
  {
    Listing(query, [], SearchColumns, term, page, per, true)
  }

  method BuildQuery(query: string, filter: Filter) returns (q: SqlQuery)
    ensures q == MemberListing(query, filter.term, filter.page, filter.per)
  {
    q := SearchAndFinish([], query, [], [], 0, SearchColumns, filter.term, true, filter.page, filter.per);
  }

  /**
   * An empty term adds no WHERE clause and binds no value; a non-empty one
   * adds the search group bound to the lower-cased term. A page appends
   * LIMIT/OFFSET bound to `per` and the page's offset.
   */
  lemma QueryShape(query: string, term: string, page: int, per: int)
    ensures var q := MemberListing(query, term, page, per);
      var u := MemberListing(query, term, 0, 0);
      && (term == "" ==> u == SqlQuery(query, []))
      && (term != "" ==> u.text == query + " WHERE " + TermGroup(SearchColumns, 1)
                         && u.args == [Text(ToLower(term))])
      && (page > 0 && per > 0 ==>
            q.text == u.text + LimitClause(|u.args| + 1) && q.args == u.args + [Int(per), Int(Offset(page, per))])
      && (!(page > 0 && per > 0) ==> q == u)
  {
    SearchOnlyListing(query, SearchColumns, term, 0, 0, true);
    ListingShape(query, [], SearchColumns, term, page, per, true);
  }

  /** The search group is a single LIKE on full_name. */
  lemma SearchGroup(k: nat)
    ensures TermGroup(SearchColumns, k) == " (" + LikeClause("full_name", k) + ")"
  {
    TermGroupOfOne("full_name", k);
  }

  /** The statement numbers `$1 ... $n` after the base statement's own placeholders, `n` being the number of values. */
  lemma QueryPlaceholders(query: string, term: string, page: int, per: int)
    ensures var q := MemberListing(query, term, page, per);
      Placeholders(q.text) == Placeholders(query) + Range(1, |q.args|)
  {
    assert PlainColumn("full_name");
    ListingPlaceholders(query, [], SearchColumns, term, page, per, true);
  }

  // ---------------------------------------------------------------------
  // GetMembers / GetMembersCount
  // ---------------------------------------------------------------------

  /**
   * The listing builds from an unpaged copy of the filter and collects the
   * rows; `respond` is the database (no result set on a failed query, `None`
   * for a row that fails to scan). The caller's filter is not changed.
   */
  method GetMembers(filter: Filter, respond: SqlQuery -> Option<seq<Option<Member>>>)
    returns (members: seq<Member>, err: Option<AppError>)
    ensures var q := MemberListing(GetMembersSql, filter.term, 0, 0);
      && (respond(q).None? ==> members == [] && err == Some(DatabaseError("get members")))
      && (respond(q).Some? ==>
            && (err.None? <==> AllScanned(respond(q).value))
            && (err.None? ==> members == ScannedValues(respond(q).value))
            && (err.Some? ==> members == [] && err == Some(DatabaseError("scan row"))))
  {
    var unpaged := filter.NoPagination();
    var q := BuildQuery(GetMembersSql, unpaged);
    var rows := respond(q);
    if rows.None? {
      return [], Some(DatabaseError("get members"));
    }
    members, err := CollectRows(rows.value);
  }

  method GetMembersCount(filter: Filter, count: SqlQuery -> Option<int>) returns (n: int, err: Option<AppError>)
    ensures var q := MemberListing(GetMembersCountSql, filter.term, 0, 0);
      && (count(q).None? ==> n == 0 && err == Some(DatabaseError("get members count")))
      && (count(q).Some? ==> n == count(q).value && err.None?)
  {
    var unpaged := filter.NoPagination();
    var q := BuildQuery(GetMembersCountSql, unpaged);
    var c := count(q);
    if c.None? {
      return 0, Some(DatabaseError("get members count"));
    }
    return c.value, None;
  }
}

/**
 * The procedures table (internal/domain/procedure_domain.go): the upsert,
 * the lookup by code the adjudication relies on, and the search builder,
 * which never pages.
 */
module ProcedureDomain {
  import opened Common
  import opened Models
  import opened Ledger
  import opened Filters
  import opened Strings
  import opened QueryBuilder

  /** The text columns a search term is matched against, in order. */
  const SearchColumns := ["code", "description"]

  // ---------------------------------------------------------------------
  // CreateProcedure
  // ---------------------------------------------------------------------

  function SaveProcedure(t: Tables, procedure: Procedure, fault: bool): Write<Procedure>
  {
    Save(t.procedures, procedure, ProcedureId, ProcedureWithId, fault, "procedure")
  }

  /**
   * A procedure without an id is inserted with its code, description and
   * average cost and comes back with the assigned id; one with an id
   * overwrites the row with that id. If the database refuses the statement
   * nothing changes.
   */
  method CreateProcedure(db: Database, procedure: Procedure, fault: bool) returns (saved: Procedure, err: Option<AppError>)
    modifies db
    ensures var w := SaveProcedure(old(db.tables), procedure, fault);
      db.tables == old(db.tables).(procedures := w.table) && saved == w.record && err == w.err
    ensures old(db.Valid()) ==> db.Valid()
  {
    var t := db.tables.procedures;
    assert "create " + "procedure" == "create procedure" && "update " + "procedure" == "update procedure";
    if procedure.id == 0 {
      if fault {
        return procedure, Some(DatabaseError("create procedure"));
      }
      saved := procedure.(id := t.nextId);
      db.tables := db.tables.(procedures := Table(t.rows[t.nextId := saved], t.nextId + 1));
      err := None;
    } else {
      if fault {
        return procedure, Some(DatabaseError("update procedure"));
      }
      if procedure.id in t.rows {
        db.tables := db.tables.(procedures := t.(rows := t.rows[procedure.id := procedure]));
      }
      saved, err := procedure, None;
    }
    if old(db.Valid()) {
      UpsertKeepsValid(t, procedure, ProcedureId, ProcedureWithId);
    }
  }

  // ---------------------------------------------------------------------
  // GetProcedureByCode
  // ---------------------------------------------------------------------

  /**
   * The procedure whose code equals `code` exactly. No such row, or a failed
   * read, gives the scan error together with a zero procedure. Several rows
   * with the code are not excluded by the schema; the one with the smallest
   * id is taken.
   */
  function GetProcedureByCode(t: Tables, code: string, fault: bool): (r: (Procedure, Option<AppError>))
    ensures r.1.None? <==> !fault && exists k :: k in t.procedures.rows && t.procedures.rows[k].code == code
    ensures r.1.None? ==> r.0.code == code && exists k :: k in t.procedures.rows && t.procedures.rows[k] == r.0
    ensures r.1.Some? ==> r.0 == EmptyProcedure && r.1 == Some(DatabaseError("scan row"))
  {
    if fault then (EmptyProcedure, Some(DatabaseError("scan row")))
    else
      match FirstMatch(t.procedures, (p: Procedure) => p.code == code)
      case None => (EmptyProcedure, Some(DatabaseError("scan row")))
      case Some(p) => (p, None)
  }

  // ---------------------------------------------------------------------
  // buildQuery
  // ---------------------------------------------------------------------

  function ProcedureListing(query: string, term: string): SqlQuery
  {
    Listing(query, [], SearchColumns, term, 0, 0, false)
  }

  /** Only the search term shapes the statement; the paging fields are ignored. */
  method BuildQuery(query: string, filter: Filter) returns (q: SqlQuery)
    ensures q == ProcedureListing(query, filter.term)
  {
    q := SearchAndFinish([], query, [], [], 0, SearchColumns, filter.term, false, filter.page, filter.per);
    assert q == Listing(query, [], SearchColumns, filter.term, filter.page, filter.per, false);
  }

  /** Whatever page and size a filter asks for, the statement is the unpaged one. */
  lemma NeverPaged(query: string, term: string, page: int, per: int)
    ensures Listing(query, [], SearchColumns, term, page, per, false) == ProcedureListing(query, term)
    ensures var q := ProcedureListing(query, term);
      && (term == "" ==> q == SqlQuery(query, []))
      && (term != "" ==> q.text == query + " WHERE " + TermGroup(SearchColumns, 1)
                         && q.args == Repeat(Text(ToLower(term)), 2))
  {
    SearchOnlyListing(query, SearchColumns, term, 0, 0, false);
  }

  /** The search group is two LIKE clauses, on code then description, OR'ed together. */
  lemma SearchGroup(k: nat)
    ensures TermGroup(SearchColumns, k) == " (" + LikeClause("code", k) + " OR " + LikeClause("description", k + 1) + ")"
  {
    TermGroupOfTwo("code", "description", k);
  }

  /** The statement numbers `$1 ... $n` after the base statement's own placeholders, `n` being the number of values. */
  lemma QueryPlaceholders(query: string, term: string)
    ensures var q := ProcedureListing(query, term);
      Placeholders(q.text) == Placeholders(query) + Range(1, |q.args|)
  {
    assert PlainColumn("code") && PlainColumn("description");
    ListingPlaceholders(query, [], SearchColumns, term, 0, 0, false);
  }
}

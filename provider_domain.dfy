/**
 * The providers table (internal/domain/provider_domain.go): the upsert and
 * the search builder.
 */
module ProviderDomain {
  import opened Common
  import opened Models
  import opened Ledger
  import opened Filters
  import opened Strings
  import opened QueryBuilder

  /** The text columns a search term is matched against, in order. */
  const SearchColumns := ["name", "location"]

  // ---------------------------------------------------------------------
  // CreateProvider
  // ---------------------------------------------------------------------

  function SaveProvider(t: Tables, provider: Provider, fault: bool): Write<Provider>
  {
    Save(t.providers, provider, ProviderId, ProviderWithId, fault, "provider")
  }

  /**
   * A provider without an id is inserted with its name and location and
   * comes back with the assigned id; one with an id overwrites name and
   * location of the row with that id. If the database refuses the statement
   * nothing changes.
   */
  method CreateProvider(db: Database, provider: Provider, fault: bool) returns (saved: Provider, err: Option<AppError>)
    modifies db
    ensures var w := SaveProvider(old(db.tables), provider, fault);
      db.tables == old(db.tables).(providers := w.table) && saved == w.record && err == w.err
    ensures old(db.Valid()) ==> db.Valid()
  {
    var t := db.tables.providers;
    assert "create " + "provider" == "create provider" && "update " + "provider" == "update provider";
    if provider.id == 0 {
      if fault {
        return provider, Some(DatabaseError("create provider"));
      }
      saved := provider.(id := t.nextId);
      db.tables := db.tables.(providers := Table(t.rows[t.nextId := saved], t.nextId + 1));
      err := None;
    } else {
      if fault {
        return provider, Some(DatabaseError("update provider"));
      }
      if provider.id in t.rows {
        db.tables := db.tables.(providers := t.(rows := t.rows[provider.id := provider]));
      }
      saved, err := provider, None;
    }
    if old(db.Valid()) {
      UpsertKeepsValid(t, provider, ProviderId, ProviderWithId);
    }
  }

  // ---------------------------------------------------------------------
  // buildQuery
  // ---------------------------------------------------------------------

  function ProviderListing(query: string, term: string, page: int, per: int): SqlQuery
  {
    Listing(query, [], SearchColumns, term, page, per, true)
  }

  method BuildQuery(query: string, filter: Filter) returns (q: SqlQuery)
    ensures q == ProviderListing(query, filter.term, filter.page, filter.per)
  {
    q := SearchAndFinish([], query, [], [], 0, SearchColumns, filter.term, true, filter.page, filter.per);
  }

  /**
   * An empty term adds no WHERE clause and binds no value; a non-empty one
   * adds the search group, with the lower-cased term bound once per column.
   * A page appends LIMIT/OFFSET bound to `per` and the page's offset.
   */
  lemma QueryShape(query: string, term: string, page: int, per: int)
    ensures var q := ProviderListing(query, term, page, per);
      var u := ProviderListing(query, term, 0, 0);
      && (term == "" ==> u == SqlQuery(query, []))
      && (term != "" ==> u.text == query + " WHERE " + TermGroup(SearchColumns, 1)
                         && u.args == [Text(ToLower(term)), Text(ToLower(term))])
      && (page > 0 && per > 0 ==>
            q.text == u.text + LimitClause(|u.args| + 1) && q.args == u.args + [Int(per), Int(Offset(page, per))])
      && (!(page > 0 && per > 0) ==> q == u)
  {
    SearchOnlyListing(query, SearchColumns, term, 0, 0, true);
    ListingShape(query, [], SearchColumns, term, page, per, true);
  }

  /** The search group is two LIKE clauses, on name then location, OR'ed together. */
  lemma SearchGroup(k: nat)
    ensures TermGroup(SearchColumns, k) == " (" + LikeClause("name", k) + " OR " + LikeClause("location", k + 1) + ")"
  {
    TermGroupOfTwo("name", "location", k);
  }

  /** The statement numbers `$1 ... $n` after the base statement's own placeholders, `n` being the number of values. */
  lemma QueryPlaceholders(query: string, term: string, page: int, per: int)
    ensures var q := ProviderListing(query, term, page, per);
      Placeholders(q.text) == Placeholders(query) + Range(1, |q.args|)
  {
    assert PlainColumn("name") && PlainColumn("location");
    ListingPlaceholders(query, [], SearchColumns, term, page, per, true);
  }
}

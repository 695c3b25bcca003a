/**
 * The users table (internal/domain/user_domain.go): the upsert, the
 * lookups by username and by email that registration and login rely on,
 * and the search builder.
 */
module UserDomain {
  import opened Common
  import opened Models
  import opened Ledger
  import opened Filters
  import opened Strings
  import opened QueryBuilder

  /** The text columns a search term is matched against, in order. */
  const SearchColumns := ["username", "email"]

  // ---------------------------------------------------------------------
  // CreateUser
  // ---------------------------------------------------------------------

  function SaveUser(t: Tables, user: User, fault: bool): Write<User>
  {
    Save(t.users, user, UserId, UserWithId, fault, "user")
  }

  /**
   * A user without an id is inserted with its username, email, password
   * hash and active flag and comes back with the assigned id; one with an id
   * overwrites those four columns of the row with that id. If the database
   * refuses the statement nothing changes.
   */
  method CreateUser(db: Database, user: User, fault: bool) returns (saved: User, err: Option<AppError>)
    modifies db
    ensures var w := SaveUser(old(db.tables), user, fault);
      db.tables == old(db.tables).(users := w.table) && saved == w.record && err == w.err
    ensures old(db.Valid()) ==> db.Valid()
  {
    var t := db.tables.users;
    assert "create " + "user" == "create user" && "update " + "user" == "update user";
    if user.id == 0 {
      if fault {
        return user, Some(DatabaseError("create user"));
      }
      saved := user.(id := t.nextId);
      db.tables := db.tables.(users := Table(t.rows[t.nextId := saved], t.nextId + 1));
      err := None;
    } else {
      if fault {
        return user, Some(DatabaseError("update user"));
      }
      if user.id in t.rows {
        db.tables := db.tables.(users := t.(rows := t.rows[user.id := user]));
      }
      saved, err := user, None;
    }
    if old(db.Valid()) {
      UpsertKeepsValid(t, user, UserId, UserWithId);
    }
  }

  // ---------------------------------------------------------------------
  // GetUserByUsername / GetUserByEmail
  // ---------------------------------------------------------------------

  /**
   * A lookup on a non-key column: the matching user, or no user at all
   * (unlike the other tables, a failed scan yields nil) together with the
   * scan error when no row matches or the read fails. Of several matching
   * rows the one with the smallest id is taken.
   */
  function LookupUser(t: Tables, matches: User -> bool, fault: bool): (r: (Option<User>, Option<AppError>))
    ensures r.1.None? <==> r.0.Some?
    ensures r.0.Some? <==> !fault && exists k :: k in t.users.rows && matches(t.users.rows[k])
    ensures r.0.Some? ==> matches(r.0.value) && exists k :: k in t.users.rows && t.users.rows[k] == r.0.value
    ensures r.1.Some? ==> r.1 == Some(DatabaseError("scan user row"))
  {
    if fault then (None, Some(DatabaseError("scan user row")))
    else
      match FirstMatch(t.users, matches)
      case None => (None, Some(DatabaseError("scan user row")))
      case Some(u) => (Some(u), None)
  }

  function GetUserByUsername(t: Tables, username: string, fault: bool): (r: (Option<User>, Option<AppError>))
    ensures r.0.Some? ==> r.0.value.username == username
    ensures !fault ==> (r.0.Some? <==> exists k :: k in t.users.rows && t.users.rows[k].username == username)
  {
    LookupUser(t, (u: User) => u.username == username, fault)
  }

  function GetUserByEmail(t: Tables, email: string, fault: bool): (r: (Option<User>, Option<AppError>))
    ensures r.0.Some? ==> r.0.value.email == email
    ensures !fault ==> (r.0.Some? <==> exists k :: k in t.users.rows && t.users.rows[k].email == email)
  {
    LookupUser(t, (u: User) => u.email == email, fault)
  }

  // ---------------------------------------------------------------------
  // buildQuery
  // ---------------------------------------------------------------------

  function UserListing(query: string, term: string, page: int, per: int): SqlQuery
  {
    Listing(query, [], SearchColumns, term, page, per, true)
  }

  method BuildQuery(query: string, filter: Filter) returns (q: SqlQuery)
    ensures q == UserListing(query, filter.term, filter.page, filter.per)
  {
    q := SearchAndFinish([], query, [], [], 0, SearchColumns, filter.term, true, filter.page, filter.per);
  }

  /**
   * An empty term adds no WHERE clause and binds no value; a non-empty one
   * adds the search group, with the lower-cased term bound once per column.
   * A page appends LIMIT/OFFSET bound to `per` and the page's offset.
   */
  lemma QueryShape(query: string, term: string, page: int, per: int)
    ensures var q := UserListing(query, term, page, per);
      var u := UserListing(query, term, 0, 0);
      && (term == "" ==> u == SqlQuery(query, []))
      && (term != "" ==> u.text == query + " WHERE " + TermGroup(SearchColumns, 1)
                         && u.args == [Text(ToLower(term)), Text(ToLower(term))])
      && (page > 0 && per > 0 ==>
            q.text == u.text + LimitClause(|u.args| + 1) && q.args == u.args + [Int(per), Int(Offset(page, per))])
      && (!(page > 0 && per > 0) ==> q == u)
  {
    SearchOnlyListing(query, SearchColumns, term, 0, 0, true);
    ListingShape(query, [], SearchColumns, term, page, per, true);
  }

  /** The search group is two LIKE clauses, on username then email, OR'ed together. */
  lemma SearchGroup(k: nat)
    ensures TermGroup(SearchColumns, k) == " (" + LikeClause("username", k) + " OR " + LikeClause("email", k + 1) + ")"
  {
    TermGroupOfTwo("username", "email", k);
  }

  /** The statement numbers `$1 ... $n` after the base statement's own placeholders, `n` being the number of values. */
  lemma QueryPlaceholders(query: string, term: string, page: int, per: int)
    ensures var q := UserListing(query, term, page, per);
      Placeholders(q.text) == Placeholders(query) + Range(1, |q.args|)
  {
    assert PlainColumn("username") && PlainColumn("email");
    ListingPlaceholders(query, [], SearchColumns, term, page, per, true);
  }
}

/**
 * The listing queries of the domain layer: every `buildQuery` in
 * internal/domain appends optional equality conditions, an optional group
 * of case-insensitive LIKE clauses over the table's text columns and,
 * where the table pages, a LIMIT/OFFSET pair, drawing one `$n` placeholder
 * from a counter for every argument it adds.
 *
 * The placeholder counter (`utils.NewPlaceholder`, whose source is not part
 * of this model) is taken to start at zero and to return its value after
 * incrementing it, so the first placeholder is `$1`.
 */
module QueryBuilder {
  import opened Strings
  import opened Strconv

  /** A bound argument: the term and the id filters are text, paging values are integers. */
  datatype Arg = Text(text: string) | Int(number: int)

  datatype SqlQuery = SqlQuery(text: string, args: seq<Arg>)

  // ---------------------------------------------------------------------
  // SQL fragments
  // ---------------------------------------------------------------------

  function Placeholder(k: nat): string { "$" + NatToString(k) }

  /** `col = $k` */
  function Equality(col: string, k: nat): string { col + " = " + Placeholder(k) }

  /** ` (LOWER(col) LIKE '%' || $k || '%') ` */
  function LikeClause(col: string, k: nat): string
  {
    " (LOWER(" + col + ") LIKE '%' || " + Placeholder(k) + " || '%') "
  }

  /** One LIKE clause per column, numbered consecutively from `first`. */
  function LikeClauses(cols: seq<string>, first: nat): (likes: seq<string>)
    ensures |likes| == |cols|
  {
    seq(|cols|, i requires 0 <= i < |cols| => LikeClause(cols[i], first + i))
  }

  /** The search condition: the LIKE clauses OR'ed together in parentheses. */
  function TermGroup(cols: seq<string>, first: nat): string
  {
    " (" + Join(LikeClauses(cols, first), " OR ") + ")"
  }

  /** Equality conditions on (column, value) pairs, numbered from `first`. */
  function EqualityConds(eqs: seq<(string, string)>, first: nat): (conds: seq<string>)
    ensures |conds| == |eqs|
  {
    seq(|eqs|, i requires 0 <= i < |eqs| => Equality(eqs[i].0, first + i))
  }

  function WhereClause(conds: seq<string>): string
  {
    if |conds| == 0 then "" else " WHERE " + Join(conds, " AND ")
  }

  /** ` LIMIT $k OFFSET $k+1` (Go evaluates the two counter draws left to right). */
  function LimitClause(k: nat): string
  {
    " LIMIT " + Placeholder(k) + " OFFSET " + Placeholder(k + 1)
  }

  /** The row offset of a page, computed in Go's 64-bit `int`. */
  function Offset(page: int, per: int): int
  {
    WrapInt64((page - 1) * per)
  }

  function Repeat(a: Arg, n: nat): (r: seq<Arg>)
    ensures |r| == n && forall i :: 0 <= i < n ==> r[i] == a
  {
    seq(n, _ => a)
  }

  // ---------------------------------------------------------------------
  // The query a listing sends
  // ---------------------------------------------------------------------

  /** The values of the equality filters, in order. */
  function EqualityArgs(eqs: seq<(string, string)>): (args: seq<Arg>)
    ensures |args| == |eqs|
  {
    seq(|eqs|, i requires 0 <= i < |eqs| => Text(eqs[i].1))
  }

  /** The conditions: the equality filters that are set, then the search group if there is a term. */
  function Conditions(eqs: seq<(string, string)>, cols: seq<string>, term: string): seq<string>
  {
    EqualityConds(eqs, 1) + (if term == "" then [] else [TermGroup(cols, |eqs| + 1)])
  }

  /** The values bound to the conditions, in the same order; the term is bound lower-cased, once per column. */
  function ConditionArgs(eqs: seq<(string, string)>, cols: seq<string>, term: string): (args: seq<Arg>)
    ensures |args| == |eqs| + (if term == "" then 0 else |cols|)
  {
    EqualityArgs(eqs) + (if term == "" then [] else Repeat(Text(ToLower(term)), |cols|))
  }

  /**
   * The statement a `buildQuery` produces from the base statement `base`,
   * the equality filters `eqs` that are set, the searched columns `cols`, the
   * term, and the paging; `pages` is false for a table whose builder never
   * pages.
   */
  function Listing(base: string, eqs: seq<(string, string)>, cols: seq<string>, term: string,
                   page: int, per: int, pages: bool): SqlQuery
  {
    var args := ConditionArgs(eqs, cols, term);
    var text := base + WhereClause(Conditions(eqs, cols, term));
    if pages && page > 0 && per > 0 then
      SqlQuery(text + LimitClause(|args| + 1), args + [Int(per), Int(Offset(page, per))])
    else
      SqlQuery(text, args)
  }

  // ---------------------------------------------------------------------
  // Reading the placeholders back out of a statement
  // ---------------------------------------------------------------------

  /** Length of the run of digits at the start of `s`. */
  function DigitRun(s: string): (n: nat)
    ensures n <= |s|
  {
    if |s| > 0 && IsDigit(s[0]) then 1 + DigitRun(s[1..]) else 0
  }

  lemma {:induction false} DigitRunDigits(s: string)
    ensures AllDigits(s[..DigitRun(s)])
    decreases |s|
  {
    if |s| > 0 && IsDigit(s[0]) {
      DigitRunDigits(s[1..]);
      assert s[..DigitRun(s)] == [s[0]] + s[1..][..DigitRun(s[1..])];
    }
  }

  /** The numbers of the `$n` placeholders of a statement, in order of appearance. */
  function Placeholders(s: string): seq<nat>
    decreases |s|
  {
    if |s| == 0 then []
    else if s[0] == '$' && |s| > 1 && IsDigit(s[1]) then
      var n := DigitRun(s[1..]);
      DigitRunDigits(s[1..]);
      assert s[1..1 + n] == s[1..][..n];
      [DigitsValue(s[1..1 + n])] + Placeholders(s[1 + n..])
    else Placeholders(s[1..])
  }

  /** A piece that cannot extend a digit run before it. */
  predicate StartsSafe(s: string) { s == [] || !IsDigit(s[0]) }

  /** A column name as the builders use them: non-empty, not starting with a digit, no `$`. */
  predicate PlainColumn(c: string) { |c| > 0 && !IsDigit(c[0]) && '$' !in c }

  /** `first, first+1, ..., first+n-1` */
  function Range(first: nat, n: nat): (r: seq<nat>)
    ensures |r| == n
  {
    seq(n, i requires 0 <= i < n => first + i)
  }

  lemma RangeSplit(first: nat, m: nat, n: nat)
    ensures Range(first, m) + Range(first + m, n) == Range(first, m + n)
  {
  }

  lemma {:induction false} DigitRunConcat(a: string, b: string)
    requires StartsSafe(b)
    ensures DigitRun(a + b) == DigitRun(a)
    decreases |a|
  {
    if |a| > 0 {
      assert (a + b)[0] == a[0];
      if IsDigit(a[0]) {
        assert (a + b)[1..] == a[1..] + b;
        DigitRunConcat(a[1..], b);
      }
    }
  }

  /** A statement's placeholders are those of its parts, provided no digit run spans the seam. */
  lemma {:induction false} PlaceholdersConcat(a: string, b: string)
    requires StartsSafe(b)
    ensures Placeholders(a + b) == Placeholders(a) + Placeholders(b)
    decreases |a|
  {
    if |a| == 0 {
      assert a + b == b;
    } else if a[0] == '$' && |a| > 1 && IsDigit(a[1]) {
      var ab := a + b;
      assert ab[0] == '$' && ab[1] == a[1];
      assert ab[1..] == a[1..] + b;
      DigitRunConcat(a[1..], b);
      var n := DigitRun(a[1..]);
      assert ab[1..1 + n] == a[1..1 + n];
      assert ab[1 + n..] == a[1 + n..] + b;
      PlaceholdersConcat(a[1 + n..], b);
    } else {
      var ab := a + b;
      assert ab[0] == a[0];
      assert ab[1..] == a[1..] + b;
      if |a| == 1 && a[0] == '$' {
        assert ab[1..] == b;
      }
      PlaceholdersConcat(a[1..], b);
    }
  }

  lemma {:induction false} NoDollarNoPlaceholders(s: string)
    requires '$' !in s
    ensures Placeholders(s) == []
    decreases |s|
  {
    if |s| > 0 {
      assert s[0] != '$';
      assert forall c :: c in s[1..] ==> c in s;
      NoDollarNoPlaceholders(s[1..]);
    }
  }

  lemma {:induction false} DigitRunOfDigits(s: string)
    requires AllDigits(s)
    ensures DigitRun(s) == |s|
    decreases |s|
  {
    if |s| > 0 {
      DigitRunOfDigits(s[1..]);
    }
  }

  /** `s` carries exactly the placeholders `$first ... $first+n-1`, in that order. */
  ghost predicate Numbered(s: string, first: nat, n: nat)
  {
    Placeholders(s) == Range(first, n)
  }

  /** A piece that can follow a digit without extending it. */
  predicate Safe(s: string) { |s| > 0 && !IsDigit(s[0]) }

  lemma NumberedConcat(a: string, b: string, first: nat, m: nat, n: nat)
    requires Numbered(a, first, m) && Numbered(b, first + m, n) && StartsSafe(b)
    ensures Numbered(a + b, first, m + n)
  {
    PlaceholdersConcat(a, b);
    RangeSplit(first, m, n);
  }

  lemma NoDollarNumbered(s: string, first: nat)
    requires '$' !in s
    ensures Numbered(s, first, 0)
  {
    NoDollarNoPlaceholders(s);
  }

  /** Text without placeholders around a numbered piece does not disturb its numbering. */
  lemma Surrounded(pre: string, mid: string, post: string, first: nat, n: nat)
    requires '$' !in pre && '$' !in post && StartsSafe(mid) && StartsSafe(post)
    requires Numbered(mid, first, n)
    ensures Numbered(pre + mid + post, first, n)
  {
    NoDollarNumbered(pre, first);
    NoDollarNumbered(post, first + n);
    NumberedConcat(pre, mid, first, 0, n);
    NumberedConcat(pre + mid, post, first, n, 0);
  }

  /** A rendered placeholder reads back as its own number. */
  lemma PlaceholderNumber(k: nat)
    ensures Numbered(Placeholder(k), k, 1) && Safe(Placeholder(k))
  {
    var d := NatToString(k);
    var s := Placeholder(k);
    assert s[1..] == d;
    DigitRunOfDigits(d);
    DigitsValueOfNatToString(k);
    assert s[1..1 + |d|] == d;
    assert s[1 + |d|..] == [];
  }

  lemma EqualityNumber(col: string, k: nat)
    requires PlainColumn(col)
    ensures Numbered(Equality(col, k), k, 1) && Safe(Equality(col, k))
  {
    var pre := col + " = ";
    PlaceholderNumber(k);
    Surrounded(pre, Placeholder(k), "", k, 1);
    assert pre + Placeholder(k) + "" == Equality(col, k);
  }

  lemma LikeClauseNumber(col: string, k: nat)
    requires PlainColumn(col)
    ensures Numbered(LikeClause(col, k), k, 1) && Safe(LikeClause(col, k))
  {
    var pre := " (LOWER(" + col + ") LIKE '%' || ";
    var post := " || '%') ";
    assert '$' !in pre;
    PlaceholderNumber(k);
    Surrounded(pre, Placeholder(k), post, k, 1);
  }

  /** The separators and brackets the builders put between numbered pieces. */
  predicate Separator(sep: string) { Safe(sep) && '$' !in sep }

  /** Two numbered pieces around a separator keep their numbering. */
  lemma SeparatedNumbering(a: string, sep: string, b: string, first: nat, m: nat, n: nat)
    requires Separator(sep) && Safe(b)
    requires Numbered(a, first, m) && Numbered(b, first + m, n)
    ensures Numbered(a + sep + b, first, m + n)
  {
    NoDollarNumbered(sep, first + m);
    NumberedConcat(a, sep, first, m, 0);
    NumberedConcat(a + sep, b, first, m, n);
  }

  /**
   * Joining pieces that are numbered consecutively, one placeholder each,
   * numbers the whole consecutively.
   */
  lemma {:induction false} JoinNumbering(parts: seq<string>, sep: string, first: nat)
    requires Separator(sep)
    requires forall i :: 0 <= i < |parts| ==> Safe(parts[i]) && Numbered(parts[i], first + i, 1)
    ensures Numbered(Join(parts, sep), first, |parts|)
    ensures |parts| > 0 ==> Safe(Join(parts, sep))
    decreases |parts|
  {
    if |parts| == 0 {
      assert Join(parts, sep) == [];
    } else if |parts| == 1 {
      assert Join(parts, sep) == parts[0];
    } else {
      var rest := parts[1..];
      JoinNumbering(rest, sep, first + 1);
      var j := Join(rest, sep);
      SeparatedNumbering(parts[0], sep, j, first, 1, |rest|);
      assert Join(parts, sep) == parts[0] + sep + j;
    }
  }

  /** Appending a piece numbered after the joined ones continues the numbering. */
  lemma JoinSnocNumbering(parts: seq<string>, last: string, sep: string, first: nat, m: nat)
    requires |parts| > 0 && Separator(sep) && Safe(last)
    requires Numbered(Join(parts, sep), first, |parts|) && Numbered(last, first + |parts|, m)
    ensures Numbered(Join(parts + [last], sep), first, |parts| + m)
  {
    var j := Join(parts, sep);
    SeparatedNumbering(j, sep, last, first, |parts|, m);
    JoinSnoc(parts, last, sep);
  }

  /** The search group carries one placeholder per column, consecutively from `first`. */
  lemma TermGroupNumbering(cols: seq<string>, first: nat)
    requires forall c :: c in cols ==> PlainColumn(c)
    ensures Numbered(TermGroup(cols, first), first, |cols|) && Safe(TermGroup(cols, first))
  {
    var likes := LikeClauses(cols, first);
    forall i | 0 <= i < |likes|
      ensures Safe(likes[i]) && Numbered(likes[i], first + i, 1)
    {
      assert cols[i] in cols;
      LikeClauseNumber(cols[i], first + i);
    }
    JoinNumbering(likes, " OR ", first);
    Surrounded(" (", Join(likes, " OR "), ")", first, |cols|);
  }

  lemma EqualityCondsNumbering(eqs: seq<(string, string)>, first: nat)
    requires forall i :: 0 <= i < |eqs| ==> PlainColumn(eqs[i].0)
    ensures var conds := EqualityConds(eqs, first);
      forall i :: 0 <= i < |conds| ==> Safe(conds[i]) && Numbered(conds[i], first + i, 1)
  {
    var conds := EqualityConds(eqs, first);
    forall i | 0 <= i < |conds|
      ensures Safe(conds[i]) && Numbered(conds[i], first + i, 1)
    {
      EqualityNumber(eqs[i].0, first + i);
    }
  }

  /** The AND'ed conditions number `$1 ... $n`, one per condition argument. */
  lemma ConditionsNumbering(eqs: seq<(string, string)>, cols: seq<string>, term: string)
    requires forall i :: 0 <= i < |eqs| ==> PlainColumn(eqs[i].0)
    requires forall c :: c in cols ==> PlainColumn(c)
    requires eqs != [] || term != ""
    ensures var joined := Join(Conditions(eqs, cols, term), " AND ");
      Safe(joined) && Numbered(joined, 1, |ConditionArgs(eqs, cols, term)|)
  {
    var sep := " AND ";
    var eqConds := EqualityConds(eqs, 1);
    EqualityCondsNumbering(eqs, 1);
    JoinNumbering(eqConds, sep, 1);
    if term != "" {
      var tg := TermGroup(cols, |eqs| + 1);
      TermGroupNumbering(cols, |eqs| + 1);
      if eqs == [] {
        assert Conditions(eqs, cols, term) == [tg];
        assert Join([tg], sep) == tg;
      } else {
        assert Conditions(eqs, cols, term) == eqConds + [tg];
        JoinSnocNumbering(eqConds, tg, sep, 1, |cols|);
        JoinSnoc(eqConds, tg, sep);
      }
    } else {
      assert Conditions(eqs, cols, term) == eqConds;
    }
  }

  lemma WhereNumbering(eqs: seq<(string, string)>, cols: seq<string>, term: string)
    requires forall i :: 0 <= i < |eqs| ==> PlainColumn(eqs[i].0)
    requires forall c :: c in cols ==> PlainColumn(c)
    ensures var w := WhereClause(Conditions(eqs, cols, term));
      StartsSafe(w) && Numbered(w, 1, |ConditionArgs(eqs, cols, term)|)
  {
    var conds := Conditions(eqs, cols, term);
    if eqs != [] || term != "" {
      var joined := Join(conds, " AND ");
      ConditionsNumbering(eqs, cols, term);
      Surrounded(" WHERE ", joined, "", 1, |ConditionArgs(eqs, cols, term)|);
      assert WhereClause(conds) == " WHERE " + joined + "";
    } else {
      assert WhereClause(conds) == "";
    }
  }

  lemma LimitNumbering(k: nat)
    ensures Safe(LimitClause(k)) && Numbered(LimitClause(k), k, 2)
  {
    var limit := " LIMIT " + Placeholder(k);
    PlaceholderNumber(k);
    PlaceholderNumber(k + 1);
    Surrounded(" LIMIT ", Placeholder(k), "", k, 1);
    assert limit == " LIMIT " + Placeholder(k) + "";
    SeparatedNumbering(limit, " OFFSET ", Placeholder(k + 1), k, 1, 1);
  }

  /** The statement before paging: the base's placeholders, then `$1 ... $n` for the conditions. */
  lemma UnpagedPlaceholders(base: string, eqs: seq<(string, string)>, cols: seq<string>, term: string)
    requires forall i :: 0 <= i < |eqs| ==> PlainColumn(eqs[i].0)
    requires forall c :: c in cols ==> PlainColumn(c)
    ensures Placeholders(base + WhereClause(Conditions(eqs, cols, term)))
         == Placeholders(base) + Range(1, |ConditionArgs(eqs, cols, term)|)
  {
    WhereNumbering(eqs, cols, term);
    PlaceholdersConcat(base, WhereClause(Conditions(eqs, cols, term)));
  }

  /** LIMIT/OFFSET continue the numbering with the next two placeholders. */
  lemma PagedPlaceholders(text: string, before: seq<nat>, n: nat)
    requires Placeholders(text) == before + Range(1, n)
    ensures Placeholders(text + LimitClause(n + 1)) == before + Range(1, n + 2)
  {
    LimitNumbering(n + 1);
    PlaceholdersConcat(text, LimitClause(n + 1));
    RangeSplit(1, n, 2);
  }

  /**
   * Placeholders versus arguments: after the base statement's own
   * placeholders, the statement numbers `$1 ... $n` exactly once each, in
   * order, where `n` is the number of bound arguments.
   */
  lemma ListingPlaceholders(base: string, eqs: seq<(string, string)>, cols: seq<string>, term: string,
                            page: int, per: int, pages: bool)
    requires forall i :: 0 <= i < |eqs| ==> PlainColumn(eqs[i].0)
    requires forall c :: c in cols ==> PlainColumn(c)
    ensures var q := Listing(base, eqs, cols, term, page, per, pages);
      Placeholders(q.text) == Placeholders(base) + Range(1, |q.args|)
  {
    var n := |ConditionArgs(eqs, cols, term)|;
    var text := base + WhereClause(Conditions(eqs, cols, term));
    ListingParts(base, eqs, cols, term, page, per, pages);
    UnpagedPlaceholders(base, eqs, cols, term);
    if pages && page > 0 && per > 0 {
      PagedPlaceholders(text, Placeholders(base), n);
    }
  }

  /** A listing's text and number of arguments, paged or not. */
  lemma ListingParts(base: string, eqs: seq<(string, string)>, cols: seq<string>, term: string,
                     page: int, per: int, pages: bool)
    ensures var q := Listing(base, eqs, cols, term, page, per, pages);
      var n := |ConditionArgs(eqs, cols, term)|;
      var text := base + WhereClause(Conditions(eqs, cols, term));
      && (pages && page > 0 && per > 0 ==> q.text == text + LimitClause(n + 1) && |q.args| == n + 2)
      && (!(pages && page > 0 && per > 0) ==> q.text == text && |q.args| == n)
  {
  }

  /**
   * The shape of a listing: WHERE appears exactly when some condition does;
   * the equality filters come first with their values bound in order, the
   * search term follows, bound lower-cased once per column; a paged query
   * is the unpaged one plus LIMIT/OFFSET bound to `per` and the offset.
   */
  lemma ListingShape(base: string, eqs: seq<(string, string)>, cols: seq<string>, term: string,
                     page: int, per: int, pages: bool)
    ensures var q := Listing(base, eqs, cols, term, page, per, pages);
      var u := Listing(base, eqs, cols, term, page, per, false);
      var conds := Conditions(eqs, cols, term);
      && (|conds| == 0 <==> eqs == [] && term == "")
      && (|conds| == 0 ==> u.text == base)
      && (|conds| > 0 ==> u.text == base + " WHERE " + Join(conds, " AND "))
      && (forall i :: 0 <= i < |eqs| ==> conds[i] == Equality(eqs[i].0, i + 1) && u.args[i] == Text(eqs[i].1))
      && (term != "" ==> conds[|eqs|] == TermGroup(cols, |eqs| + 1))
      && (term != "" ==> forall i :: |eqs| <= i < |u.args| ==> u.args[i] == Text(ToLower(term)))
      && |u.args| == |eqs| + (if term == "" then 0 else |cols|)
      && (pages && page > 0 && per > 0 ==>
            q.text == u.text + LimitClause(|u.args| + 1)
            && q.args == u.args + [Int(per), Int(Offset(page, per))])
      && (!(pages && page > 0 && per > 0) ==> q == u)
  {
  }

  /** One more equality filter adds its condition, numbered next, and its value, at the end. */
  lemma EqualitySnoc(eqs: seq<(string, string)>, col: string, value: string)
    ensures EqualityConds(eqs + [(col, value)], 1) == EqualityConds(eqs, 1) + [Equality(col, |eqs| + 1)]
    ensures EqualityArgs(eqs + [(col, value)]) == EqualityArgs(eqs) + [Text(value)]
  {
  }

  /**
   * After the equality filters, the search step (taken only for a non-empty
   * term) completes the listing's conditions and values.
   */
  lemma SearchStep(eqs: seq<(string, string)>, cols: seq<string>, term: string)
    ensures term == "" ==>
      && Conditions(eqs, cols, term) == EqualityConds(eqs, 1)
      && ConditionArgs(eqs, cols, term) == EqualityArgs(eqs)
    ensures term != "" ==>
      && Conditions(eqs, cols, term) == EqualityConds(eqs, 1) + [TermGroup(cols, |eqs| + 1)]
      && ConditionArgs(eqs, cols, term) == EqualityArgs(eqs) + Repeat(Text(ToLower(term)), |cols|)
  {
  }

  /**
   * A builder that has collected the listing's conditions and values, and
   * drawn one placeholder per value, finishes with the listing's statement.
   */
  lemma FinishedListing(query: string, eqs: seq<(string, string)>, cols: seq<string>, term: string,
                        page: int, per: int, pages: bool, conditions: seq<string>, args: seq<Arg>)
    requires conditions == Conditions(eqs, cols, term) && args == ConditionArgs(eqs, cols, term)
    ensures pages && page > 0 && per > 0 ==>
      Listing(query, eqs, cols, term, page, per, pages)
        == SqlQuery(query + WhereClause(conditions) + LimitClause(|args| + 1), args + [Int(per), Int(Offset(page, per))])
    ensures !(pages && page > 0 && per > 0) ==>
      Listing(query, eqs, cols, term, page, per, pages) == SqlQuery(query + WhereClause(conditions), args)
  {
  }

  /**
   * A listing without equality filters: WHERE and the search group only for
   * a non-empty term, whose lower-cased value is bound once per column, then
   * LIMIT/OFFSET when the table pages and a page is asked for.
   */
  lemma SearchOnlyListing(query: string, cols: seq<string>, term: string, page: int, per: int, pages: bool)
    ensures var q := Listing(query, [], cols, term, page, per, pages);
      var where := if term == "" then "" else " WHERE " + TermGroup(cols, 1);
      var values := if term == "" then [] else Repeat(Text(ToLower(term)), |cols|);
      && (pages && page > 0 && per > 0 ==>
            q == SqlQuery(query + where + LimitClause(|values| + 1), values + [Int(per), Int(Offset(page, per))]))
      && (!(pages && page > 0 && per > 0) ==> q == SqlQuery(query + where, values))
  {
    var conds := Conditions([], cols, term);
    var args := ConditionArgs([], cols, term);
    SearchStep([], cols, term);
    assert EqualityConds([], 1) == [] && EqualityArgs([]) == [];
    if term == "" {
      assert conds == [] && args == [];
    } else {
      assert conds == [TermGroup(cols, 1)];
      assert args == Repeat(Text(ToLower(term)), |cols|);
      assert WhereClause(conds) == " WHERE " + TermGroup(cols, 1);
    }
    FinishedListing(query, [], cols, term, page, per, pages, conds, args);
  }

  /** A search over one, two or three columns spelled out. */
  lemma TermGroupOfOne(a: string, k: nat)
    ensures TermGroup([a], k) == " (" + LikeClause(a, k) + ")"
  {
    assert LikeClauses([a], k) == [LikeClause(a, k)];
  }

  lemma TermGroupOfTwo(a: string, b: string, k: nat)
    ensures TermGroup([a, b], k) == " (" + LikeClause(a, k) + " OR " + LikeClause(b, k + 1) + ")"
  {
    var l0, l1 := LikeClause(a, k), LikeClause(b, k + 1);
    assert LikeClauses([a, b], k) == [l0, l1];
    assert Join([l0, l1], " OR ") == l0 + " OR " + l1 by {
      assert [l0, l1][1..] == [l1];
    }
    Associative(" (", l0 + " OR " + l1, ")");
  }

  lemma TermGroupOfThree(a: string, b: string, c: string, k: nat)
    ensures TermGroup([a, b, c], k)
      == " (" + Join([LikeClause(a, k), LikeClause(b, k + 1), LikeClause(c, k + 2)], " OR ") + ")"
  {
    assert LikeClauses([a, b, c], k) == [LikeClause(a, k), LikeClause(b, k + 1), LikeClause(c, k + 2)];
  }

  lemma Associative(a: string, b: string, c: string)
    ensures a + (b + c) == a + b + c
  {
  }

  /** The offset is `(page-1)*per` whenever that fits in 64 bits. */
  lemma OffsetOfSmallPages(page: int, per: int)
    requires 0 < page && 0 < per && InInt64((page - 1) * per)
    ensures Offset(page, per) == (page - 1) * per && Offset(page, per) >= 0
  {
  }

  // ---------------------------------------------------------------------
  // The shared building steps, as the builders perform them
  // ---------------------------------------------------------------------

  /**
   * `if value != nil { conditions = append(conditions, "col = $n"); args = append(args, value) }`
   */
  method AppendEquality(conditions: seq<string>, args: seq<Arg>, counter: nat, col: string, value: string)
    returns (conditions': seq<string>, args': seq<Arg>, counter': nat)
    ensures counter' == counter + 1
    ensures conditions' == conditions + [Equality(col, counter')]
    ensures args' == args + [Text(value)]
  {
    counter' := counter + 1;
    conditions' := conditions + [Equality(col, counter')];
    args' := args + [Text(value)];
  }

  /**
   * The search loop: one LIKE clause per text column, each drawing the next
   * placeholder and binding the lower-cased term, then the OR'ed group
   * appended as one condition.
   */
  method AppendTermGroup(conditions: seq<string>, args: seq<Arg>, counter: nat, cols: seq<string>, term: string)
    returns (conditions': seq<string>, args': seq<Arg>, counter': nat)
    ensures counter' == counter + |cols|
    ensures conditions' == conditions + [TermGroup(cols, counter + 1)]
    ensures args' == args + Repeat(Text(ToLower(term)), |cols|)
  {
    var likeStatements: seq<string> := [];
    var lower := ToLower(term);
    args' := args;
    counter' := counter;
    for i := 0 to |cols|
      invariant counter' == counter + i
      invariant likeStatements == LikeClauses(cols[..i], counter + 1)
      invariant args' == args + Repeat(Text(lower), i)
    {
      counter' := counter' + 1;
      likeStatements := likeStatements + [LikeClause(cols[i], counter')];
      args' := args' + [Text(lower)];
    }
    assert cols[..|cols|] == cols;
    conditions' := conditions + [" (" + Join(likeStatements, " OR ") + ")"];
  }

  /**
   * The end of every builder: WHERE with the conditions AND'ed if there are
   * any, then, when `paged`, LIMIT and OFFSET with the next two placeholders
   * bound to `per` and the page's offset.
   */
  method Finish(query: string, conditions: seq<string>, args: seq<Arg>, counter: nat, paged: bool, page: int, per: int)
    returns (q: SqlQuery)
    ensures !paged ==> q == SqlQuery(query + WhereClause(conditions), args)
    ensures paged ==> q == SqlQuery(query + WhereClause(conditions) + LimitClause(counter + 1),
                                    args + [Int(per), Int(Offset(page, per))])
  {
    var text := query;
    var args' := args;
    if |conditions| > 0 {
      text := text + (" WHERE " + Join(conditions, " AND "));
    }
    if paged {
      var limitAt := counter + 1;
      var offsetAt := limitAt + 1;
      text := text + (" LIMIT " + Placeholder(limitAt) + " OFFSET " + Placeholder(offsetAt));
      args' := args' + [Int(per), Int(Offset(page, per))];
    }
    q := SqlQuery(text, args');
  }

  /**
   * What every builder does after its own equality filters: the search
   * group when there is a term, then WHERE, then LIMIT/OFFSET when the
   * table pages and the filter asks for a page. Started from the conditions,
   * values and counter of the equality filters `eqs`, it produces their
   * listing.
   */
  method SearchAndFinish(ghost eqs: seq<(string, string)>, query: string, conditions: seq<string>, args: seq<Arg>,
                         counter: nat, cols: seq<string>, term: string, pages: bool, page: int, per: int)
    returns (q: SqlQuery)
    ensures conditions == EqualityConds(eqs, 1) && args == EqualityArgs(eqs) && counter == |eqs| ==>
      q == Listing(query, eqs, cols, term, page, per, pages)
  {
    var conditions', args', counter' := conditions, args, counter;
    if term != "" {
      conditions', args', counter' := AppendTermGroup(conditions, args, counter, cols, term);
    }
    q := Finish(query, conditions', args', counter', pages && page > 0 && per > 0, page, per);
    if conditions == EqualityConds(eqs, 1) && args == EqualityArgs(eqs) && counter == |eqs| {
      SearchStep(eqs, cols, term);
      FinishedListing(query, eqs, cols, term, page, per, pages, conditions', args');
    }
  }
}

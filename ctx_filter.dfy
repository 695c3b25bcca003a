/**
 * Reading the list filter from a request's query string
 * (internal/ctxfilter/filter.go). gin's `c.Query` is the parameter `query`:
 * the first value given for a key, or "" when there is none.
 */
module CtxFilter {
  import opened Common
  import opened Strings
  import opened Strconv
  import opened Filters

  const DefaultPage := 1
  const DefaultPer := 20

  // ---------------------------------------------------------------------
  // paginationFromContext
  // ---------------------------------------------------------------------

  /**
   * One paging parameter: trimmed; blank means the default; otherwise it
   * must be a decimal integer, whatever its sign.
   */
  function PagingParam(raw: string, default: int): (r: Result<int>)
    ensures TrimSpace(raw) == "" ==> r == Ok(default)
    ensures TrimSpace(raw) != "" ==>
      (r.Ok? <==> Atoi(TrimSpace(raw)).Some?)
      && (r.Ok? ==> r.value == Atoi(TrimSpace(raw)).value)
      && (r.Err? ==> r.error == BadRequestParse("Atoi", TrimSpace(raw)))
  {
    var s := TrimSpace(raw);
    if s == "" then Ok(default)
    else match Atoi(s)
      case None => Err(BadRequestParse("Atoi", s))
      case Some(v) => Ok(v)
  }

  /** Page, then per: the first malformed one is the error. */
  function Pagination(query: string -> string): Result<(int, int)>
  {
    match PagingParam(query("page"), DefaultPage)
    case Err(e) => Err(e)
    case Ok(page) =>
      match PagingParam(query("per"), DefaultPer)
      case Err(e) => Err(e)
      case Ok(per) => Ok((page, per))
  }

  method PaginationFromContext(query: string -> string) returns (page: int, per: int, err: Option<AppError>)
    ensures err.None? <==> Pagination(query).Ok?
    ensures err.None? ==> (page, per) == Pagination(query).value
    ensures err.Some? ==> err.value == Pagination(query).error
  {
    page := DefaultPage;
    per := DefaultPer;
    var pageQuery := TrimSpace(query("page"));
    if pageQuery != "" {
      var parsed := Atoi(pageQuery);
      if parsed.None? {
        return page, per, Some(BadRequestParse("Atoi", pageQuery));
      }
      page := parsed.value;
    }
    var perQuery := TrimSpace(query("per"));
    if perQuery != "" {
      var parsed := Atoi(perQuery);
      if parsed.None? {
        return page, per, Some(BadRequestParse("Atoi", perQuery));
      }
      per := parsed.value;
    }
    err := None;
  }

  /** A blank or absent parameter takes its default: page 1, 20 per page. */
  lemma PaginationDefaults(query: string -> string)
    ensures TrimSpace(query("page")) == "" && TrimSpace(query("per")) == "" ==>
      Pagination(query) == Ok((DefaultPage, DefaultPer))
    ensures Pagination(query).Ok? && TrimSpace(query("page")) == "" ==>
      Pagination(query).value.0 == DefaultPage
    ensures Pagination(query).Ok? && TrimSpace(query("per")) == "" ==>
      Pagination(query).value.1 == DefaultPer
    ensures AllSpace(query("page")) && AllSpace(query("per")) ==>
      Pagination(query) == Ok((DefaultPage, DefaultPer))
  {
    TrimSpaceBlank(query("page"));
    TrimSpaceBlank(query("per"));
  }

  /** A malformed page is reported before per is looked at, whatever per holds. */
  lemma PageErrorFirst(query: string -> string)
    requires PagingParam(query("page"), DefaultPage).Err?
    ensures Pagination(query) == Err(BadRequestParse("Atoi", TrimSpace(query("page"))))
  {
  }

  /**
   * There is no range check: any 64-bit decimal page and per, zero and
   * negative ones included, surrounded by any white space, pass through.
   */
  lemma DecimalPagingPassesThrough(query: string -> string, page: int, per: int,
                                   w1: string, w2: string, w3: string, w4: string)
    requires InInt64(page) && InInt64(per)
    requires AllSpace(w1) && AllSpace(w2) && AllSpace(w3) && AllSpace(w4)
    requires query("page") == w1 + Decimal(page) + w2
    requires query("per") == w3 + Decimal(per) + w4
    ensures Pagination(query) == Ok((page, per))
  {
    DecimalParses(page, w1, w2);
    DecimalParses(per, w3, w4);
  }

  /** The decimal rendering of an integer, with a minus sign when negative. */
  function Decimal(n: int): string
  {
    if n >= 0 then NatToString(n) else "-" + NatToString(-n)
  }

  lemma DecimalParses(n: int, w1: string, w2: string)
    requires InInt64(n) && AllSpace(w1) && AllSpace(w2)
    ensures TrimSpace(w1 + Decimal(n) + w2) == Decimal(n)
    ensures Atoi(Decimal(n)) == Some(n)
  {
    AtoiRoundTrip(n);
    AtoiRejectsSpace(Decimal(n));
    TrimSpaceOfPadded(w1, Decimal(n), w2);
  }

  // ---------------------------------------------------------------------
  // FilterFromContext
  // ---------------------------------------------------------------------

  /** An optional boolean parameter: blank leaves it unset; otherwise it must be one of ParseBool's spellings. */
  function OptionalBool(raw: string): (r: Result<Option<bool>>)
    ensures TrimSpace(raw) == "" ==> r == Ok(None)
    ensures TrimSpace(raw) != "" ==>
      (r.Ok? <==> ParseBool(TrimSpace(raw)).Some?)
      && (r.Ok? ==> r.value == ParseBool(TrimSpace(raw)))
      && (r.Err? ==> r.error == BadRequestParse("ParseBool", TrimSpace(raw)))
  {
    var s := TrimSpace(raw);
    if s == "" then Ok(None)
    else match ParseBool(s)
      case None => Err(BadRequestParse("ParseBool", s))
      case Some(b) => Ok(Some(b))
  }

  /** A boolean written as "true" or "false", with any white space around, is read back. */
  lemma OptionalBoolRoundTrip(b: bool, w1: string, w2: string)
    requires AllSpace(w1) && AllSpace(w2)
    ensures OptionalBool(w1 + FormatBool(b) + w2) == Ok(Some(b))
  {
    TrimSpaceOfPadded(w1, FormatBool(b), w2);
  }

  /** A text parameter as the filter holds it: trimmed, "" when absent. */
  function Param(query: string -> string, key: string): string
  {
    TrimSpace(query(key))
  }

  /** The fields read as text, in declaration order of the struct. */
  ghost function TextFields(filter: Filter): (string, string, string, string, string, Option<string>, string, string, string)
    reads filter
  {
    (filter.from, filter.to, filter.token, filter.term, filter.uuid, filter.status, filter.typeName,
     filter.year, filter.reference)
  }

  /** Each text field trimmed from its parameter, with status absent when blank. */
  function TextParams(query: string -> string): (string, string, string, string, string, Option<string>, string, string, string)
  {
    (Param(query, "from"), Param(query, "to"), Param(query, "token"), Param(query, "term"),
     Param(query, "uuid"), NullValue(Param(query, "status")), Param(query, "type"),
     Param(query, "year"), Param(query, "reference"))
  }

  /**
   * The filter as read from a query string whose paging parsed to `page`
   * and `per`: paging and text fields set, the fields not read left at their
   * zero value, and the flags read.
   */
  ghost predicate ReadFrom(filter: Filter, query: string -> string, page: int, per: int, err: Option<AppError>)
    reads filter
  {
    && (filter.page, filter.per) == (page, per)
    && TextFields(filter) == TextParams(query)
    && (filter.fromTime, filter.toTime, filter.countQuery, filter.memberId, filter.providerId) == (None, None, false, None, None)
    && (filter.valid, filter.active, err) == Flags(query)
  }

  /**
   * "active" (into `valid`) and then "is_active" (into `active`), both
   * starting unset: the first malformed one is the error and leaves the
   * flags from it on unset.
   */
  function Flags(query: string -> string): (Option<bool>, Option<bool>, Option<AppError>)
  {
    match OptionalBool(query("active"))
    case Err(e) => (None, None, Some(e))
    case Ok(valid) =>
      match OptionalBool(query("is_active"))
      case Err(e) => (valid, None, Some(e))
      case Ok(active) => (valid, active, None)
  }

  /**
   * The flags in terms of their parameters: "active" is looked at first and
   * a malformed one leaves both flags unset; a malformed "is_active" keeps
   * the flag already read; there is an error exactly when one is malformed,
   * and blank parameters leave the flags unset.
   */
  lemma FlagsOrder(query: string -> string)
    ensures var f := Flags(query);
      var v := TrimSpace(query("active"));
      var a := TrimSpace(query("is_active"));
      && (f.2.None? <==> (v == "" || ParseBool(v).Some?) && (a == "" || ParseBool(a).Some?))
      && (v != "" && ParseBool(v).None? ==> f == (None, None, Some(BadRequestParse("ParseBool", v))))
      && (v != "" && ParseBool(v).Some? ==> f.0 == ParseBool(v))
      && ((v == "" || ParseBool(v).Some?) && a != "" && ParseBool(a).None? ==>
            f.1.None? && f.2 == Some(BadRequestParse("ParseBool", a)))
      && (v == "" && a == "" ==> f == (None, None, None))
  {
  }

  /**
   * `FilterFromContext`: a paging error returns the zero filter with that
   * error; otherwise the filter is read from the query string. The values
   * are gathered first and stored into a fresh filter, which leaves the
   * same fields set as assigning them one after the other.
   */
  method FilterFromContext(query: string -> string) returns (filter: Filter, err: Option<AppError>)
    ensures fresh(filter)
    ensures Pagination(query).Err? ==> err == Some(Pagination(query).error) && filter.IsZero()
    ensures Pagination(query).Ok? ==> ReadFrom(filter, query, Pagination(query).value.0, Pagination(query).value.1, err)
  {
    var page, per, pageErr := PaginationFromContext(query);
    if pageErr.Some? {
      filter := new Filter();
      return filter, pageErr;
    }
    filter, err := ReadFilter(query, page, per);
  }

  /** The rest of FilterFromContext once the paging has parsed to `page` and `per`. */
  method ReadFilter(query: string -> string, page: int, per: int) returns (filter: Filter, err: Option<AppError>)
    ensures fresh(filter)
    ensures ReadFrom(filter, query, page, per, err)
  {
    var valid, active, flagErr := ReadFlags(query);
    filter := new Filter.Unpaged(Param(query, "from"), Param(query, "to"), Param(query, "term"),
                                 Param(query, "uuid"), NullValue(Param(query, "status")),
                                 Param(query, "type"), Param(query, "token"), valid, active, None, None);
    filter.page, filter.per := page, per;
    filter.year, filter.reference := Param(query, "year"), Param(query, "reference");
    err := flagErr;
  }

  /** Reads the two optional flags, stopping at the first malformed one. */
  method ReadFlags(query: string -> string) returns (valid: Option<bool>, active: Option<bool>, err: Option<AppError>)
    ensures (valid, active, err) == Flags(query)
  {
    valid, active := None, None;
    var v := OptionalBool(query("active"));
    if v.Err? {
      return valid, active, Some(v.error);
    }
    valid := v.value;

    var a := OptionalBool(query("is_active"));
    if a.Err? {
      return valid, active, Some(a.error);
    }
    active := a.value;
    err := None;
  }
}

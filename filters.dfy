/**
 * The list filter of internal/models/filter.go: the query options every
 * listing and count of the domain layer takes, and the receiver methods
 * that derive or adjust it.
 *
 * Pointers and `null.Bool` become `Option`s; a parsed time is an instant
 * `int` (nanoseconds since an epoch), and the parser itself is a parameter.
 */
module Filters {
  import opened Common

  /**
   * `null.NullValue` from the internal `null` package, which is not part of
   * this model: the empty string is taken to mean "no value".
   */
  function NullValue(s: string): (r: Option<string>)
    ensures r.None? <==> s == ""
    ensures r.Some? ==> r.value == s
  {
    if s == "" then None else Some(s)
  }

  /** The message `utils.ParseTime` fails with, whatever the input. */
  const InvalidTimeFormat := "invalid time format"
  const EmptyTimeRange := "from or to filter time is empty"

  function ParseFromFailed(from: string): string
  {
    "time_filter: parse from time [" + from + "], err [" + InvalidTimeFormat + "]"
  }

  function ParseToFailed(to: string): string
  {
    "time_filter: parse to time [" + to + "], err [" + InvalidTimeFormat + "]"
  }

  class Filter {
    var page: int
    var per: int
    var from: string
    var to: string
    var token: string
    var term: string
    var uuid: string
    var status: Option<string>
    var typeName: string
    var year: string
    var reference: string
    var fromTime: Option<int>
    var toTime: Option<int>
    var valid: Option<bool>
    var active: Option<bool>
    var countQuery: bool
    var memberId: Option<string>
    var providerId: Option<string>

    /** `&models.Filter{}`: every field at its zero value. */
    ghost predicate IsZero()
      reads this
    {
      && page == 0 && per == 0
      && from == "" && to == "" && token == "" && term == "" && uuid == ""
      && status.None? && typeName == "" && year == "" && reference == ""
      && fromTime.None? && toTime.None? && valid.None? && active.None?
      && !countQuery && memberId.None? && providerId.None?
    }

    constructor ()
      ensures IsZero()
    {
      page, per := 0, 0;
      from, to, token, term, uuid := "", "", "", "", "";
      status, typeName, year, reference := None, "", "", "";
      fromTime, toTime, valid, active := None, None, None, None;
      countQuery, memberId, providerId := false, None, None;
    }

    /** A filter with the given selection criteria and every other field at its zero value. */
    constructor Unpaged(from: string, to: string, term: string, uuid: string, status: Option<string>,
                        typeName: string, token: string, valid: Option<bool>, active: Option<bool>,
                        memberId: Option<string>, providerId: Option<string>)
      ensures this.from == from && this.to == to && this.term == term && this.uuid == uuid
      ensures this.status == status && this.typeName == typeName && this.token == token
      ensures this.valid == valid && this.active == active
      ensures this.memberId == memberId && this.providerId == providerId
      ensures page == 0 && per == 0 && year == "" && reference == ""
      ensures fromTime.None? && toTime.None? && !countQuery
    {
      this.from, this.to, this.term, this.uuid := from, to, term, uuid;
      this.status, this.typeName, this.token := status, typeName, token;
      this.valid, this.active := valid, active;
      this.memberId, this.providerId := memberId, providerId;
      page, per, year, reference := 0, 0, "", "";
      fromTime, toTime, countQuery := None, None, false;
    }

    /** Whether the listing asks for a page: the condition under which LIMIT/OFFSET is emitted. */
    predicate Paged()
      reads this
    {
      page > 0 && per > 0
    }

    /** Both ends of the time range are given. */
    predicate TimeFilterSet()
      reads this
    {
      from != "" && to != ""
    }

    /**
     * A fresh filter with the same selection criteria but no paging: page
     * and per are zero, and year, reference, the parsed times and the count
     * flag are dropped. The receiver is left as it was.
     */
    method NoPagination() returns (g: Filter)
      ensures fresh(g)
      ensures g.page == 0 && g.per == 0 && !g.Paged()
      ensures g.from == from && g.to == to && g.term == term && g.uuid == uuid
      ensures g.status == status && g.typeName == typeName && g.token == token
      ensures g.valid == valid && g.active == active
      ensures g.memberId == memberId && g.providerId == providerId
      ensures g.year == "" && g.reference == "" && g.fromTime.None? && g.toTime.None? && !g.countQuery
    {
      g := new Filter.Unpaged(from, to, term, uuid, status, typeName, token, valid, active, memberId, providerId);
    }

    /** The paging used by exports: first page of a thousand rows. */
    method ExportLimit()
      modifies this`page, this`per
      ensures page == 1 && per == 1000 && Paged()
    {
      page := 1;
      per := 1000;
    }

    /**
     * Parses both ends of the time range. An incomplete range is an error
     * that changes nothing; otherwise `from` is parsed and stored first, so a
     * bad `to` leaves `fromTime` set and `toTime` as it was.
     */
    method ConvertTime(parseTime: string -> Option<int>) returns (err: Option<string>)
      modifies this`fromTime, this`toTime
      ensures !TimeFilterSet() ==>
        err == Some(EmptyTimeRange) && fromTime == old(fromTime) && toTime == old(toTime)
      ensures TimeFilterSet() && parseTime(from).None? ==>
        err == Some(ParseFromFailed(from)) && fromTime == old(fromTime) && toTime == old(toTime)
      ensures TimeFilterSet() && parseTime(from).Some? && parseTime(to).None? ==>
        err == Some(ParseToFailed(to)) && fromTime == parseTime(from) && toTime == old(toTime)
      ensures err.None? <==> TimeFilterSet() && parseTime(from).Some? && parseTime(to).Some?
      ensures err.None? ==> fromTime == parseTime(from) && toTime == parseTime(to)
    {
      if from == "" || to == "" {
        return Some(EmptyTimeRange);
      }
      var f := parseTime(from);
      if f.None? {
        return Some(ParseFromFailed(from));
      }
      fromTime := f;
      var t := parseTime(to);
      if t.None? {
        return Some(ParseToFailed(to));
      }
      toTime := t;
      return None;
    }
  }
}

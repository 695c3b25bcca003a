# ginja-ai claim adjudication, modelled in Dafny

The service adjudicates health-insurance claims. A provider submits a claim
for a member: a procedure code, a diagnosis code and a requested amount.
The service runs all of the following inside one database transaction:

- it looks up the member and the procedure;
- it flags the claim as possible fraud when the request exceeds twice the
  procedure's average cost;
- it rejects the claim, approves it in full, or approves it partially up to
  the member's remaining benefit;
- it charges the approved amount to the member's used benefit;
- it stores exactly one claim row.

Around that core sit:

- the upserts every table goes through;
- the listing-query builders, which turn a filter into SQL with numbered
  `$n` placeholders and a parallel argument list;
- the reading of filters from a query string;
- registration and login guard chains;
- the bearer-token middleware.

The modules follow the source files, with a few shared helpers:

- `ClaimService` is the adjudication (`internal/services/claim_service.go`).
- `ClaimDomain`, `MemberDomain`, `ProcedureDomain`, `ProviderDomain` and
  `UserDomain` are the domain files (`internal/domain/*`). Each holds its
  upsert and its `buildQuery`. `MemberDomain`, `ProcedureDomain` and
  `UserDomain` also hold the lookups that adjudication and login use.
- `QueryBuilder` holds the building steps the `buildQuery` functions share,
  and the reading of placeholders back out of a statement.
- `Ledger` is the database:
  - five tables of rows keyed by serial id;
  - the upsert;
  - `InTransaction` of `internal/db/db.go` as snapshot-and-restore;
  - the row-collecting loop of the listings.
- `Filters` is `models.Filter`, a class whose methods update the receiver
  in place.
- `CtxFilter` is the reading of the filter from a request
  (`internal/ctxfilter/filter.go`).
- `UserService` holds registration and login.
- `AuthMiddleware` is the Authorization-header guard.
- `Models` holds the records and the claim status vocabulary.
- `Strings` and `Strconv` model the parts of Go's `strings` and `strconv`
  packages that the code relies on.
- `Common` holds `Option`, `Result` and the application errors.

`QueryBuilder`, `Ledger`, `Strings`, `Strconv` and `Common` are shared
helpers with no source file of their own.

Inputs the code cannot see are parameters:

- whether the database refuses a statement: the `fault` flags, `Faults`,
  `TxFaults` and `RegisterFaults`;
- the rows a listing query returns;
- the query string;
- the token verifier;
- password hashing and checking;
- time parsing.

Every error path of the modelled operations is therefore modelled, except
those listed under "Left out".

Amounts are integer cents. The state-changing operations are methods on the
`Database`, `Filter` and `GinContext` objects. The `Database` methods are
proved equal to specification functions of the old state, and the
properties the service promises are proved as lemmas about those functions.
The `Filter` and `GinContext` methods state their new fields directly.

The `used_amount` update is a check-then-act sequence. The code does not
lock the member row and does not use a conditional update. It reads the
member, then later writes the raised used amount. Concurrent submissions
for one member can therefore overspend. The model covers one submission at
a time (see "Left out").

## Model

| member | source | states |
|---|---|---|
| ClaimService.Decide | internal/services/claim_service.go:65-100 | The decision is never PENDING. A rejection approves nothing. A claim is accepted exactly when the member exists and is active, the procedure exists, and some benefit remains. An accepted claim approves the smaller of the request and the remainder. It is PARTIAL exactly when the request exceeds the remainder. The fraud flag is set exactly when member and procedure passed and the request exceeds twice the average cost. |
| ClaimService.RejectionOrder | internal/services/claim_service.go:65-86 | Rejections are checked in order: missing member, inactive member, unknown procedure, exhausted benefit. Each has its own reason and approves 0. Only the exhausted-benefit rejection carries the fraud flag. |
| ClaimService.ApprovalRule | internal/services/claim_service.go:88-100 | A request up to the remainder, equality included, is APPROVED in full with no reason. A larger one is PARTIAL for exactly the remainder, with the partial-approval message. |
| ClaimService.ApprovedBounds | internal/services/claim_service.go:83-100 | For a positive request, `0 <= approved <= requested`. An accepted claim approves more than 0 and no more than the remaining benefit. |
| ClaimService.ChargeWithinLimit | internal/services/claim_service.go:83-104 | Charging the approved amount never takes a member whose used amount was within the limit past that limit. |
| ClaimService.PersistRejectedClaim | internal/services/claim_service.go:135-162 | Stores a REJECTED claim approving 0 with the given reason and flag. It answers with the assigned id, or the store's error with nothing changed. |
| ClaimService.SubmitClaimInTx | internal/services/claim_service.go:58-133 | The method leaves the database and answer of the specification: the decision, then for an accepted claim the member update followed by the claim insert, and for a rejected one only the claim insert. |
| ClaimService.ChargeAndRecord | internal/services/claim_service.go:102-132 | The accepted path: the member's used amount is raised by the approved amount and the member saved, then the claim is stored. Either write's error ends the path. |
| ClaimService.SubmitClaim | internal/services/claim_service.go:40-56 | The work runs in one transaction: a BEGIN failure changes nothing; otherwise the transaction commits on success or rolls back. |
| ClaimService.RecordEffect | internal/services/claim_service.go:109-132 | Storing a claim adds one row under the next id and answers with that id and the decision. A refused INSERT changes nothing and reports "create claim". |
| ClaimService.AcceptEffect | internal/services/claim_service.go:102-132 | An accepted claim rewrites only the claimant's row, with the charged amount, then adds the claim. A member-write failure is reported before a claim-write failure. |
| ClaimService.SubmitEffect | internal/services/claim_service.go:40-133 | A submission fails exactly when BEGIN, COMMIT, the claim write or (for an accepted claim) the member write fails, and a failure leaves every table as it was. A success adds exactly one claim under the next id, carrying what the response reports. It raises the claimant's used amount by exactly the approved amount when accepted, leaves members alone when rejected, and leaves the other tables alone. |
| ClaimService.SubmitKeepsWithinLimits | internal/services/claim_service.go:83-107 | If no member had used more than the limit before a submission, none has after it. |
| ClaimService.ResponseDescribesStoredClaim | internal/services/claim_service.go:109-132 | After a success the response's id names a new claim row, and the claim count grows by one. That row holds the response's status, approved amount, fraud flag and reason, and the form's member, provider, codes and amount. |
| ClaimService.CreateClaim | internal/services/claim_service.go:164-187 | Stores the form as a PENDING claim approving 0, unflagged and without reason, and returns the stored claim or the store's error. |
| Models.StatusWireRoundTrip | internal/services/claim_service.go:93-99 | Each status has one upper-case wire string, and reading it back gives the same status. |
| Models.DomainConstantsAreNotWireStrings | internal/custom_types/claim_status.go:7-11 | The lower-case constants of the custom types never equal a status string the service writes, and do not read back as a status. |
| Ledger.Upsert | internal/domain/member_domain.go:48-80 | A record without an id is inserted under the next id, and the sequence advances once. A record with an id is kept as it is, with the same sequence value and the same set of ids. If a row has that id, the record overwrites that row and no other. If no row has it, the table is unchanged. |
| Ledger.UpsertKeepsValid | internal/domain/member_domain.go:48-80 | An upsert keeps ids positive, below the sequence value and equal to their row's key. |
| Ledger.UpsertTouchesOnlyItsRow | internal/domain/member_domain.go:48-80 | A new record gets the next id once, and adds exactly one row. An existing record keeps its id and replaces only its own row (or nothing, if no row has that id). No other row changes. |
| Ledger.SaveTouchesOnlyItsRow | internal/domain/member_domain.go:48-80 | A refused statement changes nothing and errors. An accepted one changes only the saved row, as the upsert does, and keeps the table consistent. |
| Ledger.FirstMatch | internal/domain/procedure_domain.go:93-104 | A lookup on a non-key column finds nothing exactly when no row matches. Otherwise it returns a matching stored row with the smallest id. |
| Ledger.ConcludeIsAtomic | internal/db/db.go:55-75 | A failed transaction, including a failed rollback or commit, leaves the tables as before it. A committed one keeps all of its work. A failure of the work is always reported as a failure. |
| Ledger.ConcludeTransaction | internal/db/db.go:66-74 | Rolls back to the snapshot on an error, returning the rollback's error when the rollback itself fails. It commits otherwise, and a failed commit also restores the snapshot. |
| Ledger.CollectRows | internal/domain/member_domain.go:149-165 | The loop returns every scanned row in order when all scan. Otherwise it returns an empty list and the scan error. |
| ClaimDomain.CreateClaim | internal/domain/claim._domain.go:44-92 | The claim table after the call is the upsert of the claim, or unchanged with "create claim"/"update claim" on a refused statement. The method keeps the database consistent. |
| ClaimDomain.ClaimFilters | internal/domain/claim._domain.go:239-249 | One equality filter for each of member and provider that is set. |
| ClaimDomain.BuildQuery | internal/domain/claim._domain.go:230-276 | The appending builder produces the listing statement of the filter's member, provider, term and paging. |
| ClaimDomain.QueryPlaceholders | internal/domain/claim._domain.go:235-273 | The statement's placeholders, after the base statement's own, are `$1 … $n` once each and in order, where n is the number of bound arguments. |
| ClaimDomain.QueryConditions | internal/domain/claim._domain.go:239-264 | The conditions are the member equality, then the provider equality, then the search group, numbered in that order. |
| ClaimDomain.QueryArguments | internal/domain/claim._domain.go:239-264 | The arguments are the member id, then the provider id, then the lower-cased term three times. |
| ClaimDomain.SearchGroup | internal/domain/claim._domain.go:251-263 | The search group is three LIKE clauses on procedure_code, diagnosis_code and rejection_reason, in that order and joined by OR, so the group reads ` (<a> OR <b> OR <c>)`. |
| ClaimDomain.GetClaims | internal/domain/claim._domain.go:166-208 | Writes the member id (empty meaning none) into the caller's filter. Queries the unpaged listing. Returns all rows when every row scans, and an empty list with the error when the query or any scan fails. |
| ClaimDomain.GetClaimsCount | internal/domain/claim._domain.go:135-163 | Writes the member id into the filter, counts over the unpaged statement, and returns 0 with the error when the read fails. |
| ClaimDomain.UnpagedListing | internal/domain/claim._domain.go:142-174 | The listing and count statements carry no LIMIT/OFFSET. They are the base statement plus the WHERE clause, binding only the condition values. |
| MemberDomain.CreateMember | internal/domain/member_domain.go:41-81 | The member table after the call is the upsert of the member. All four columns are written; on a refused statement nothing changes and the error is returned. The method keeps the database consistent. |
| MemberDomain.GetMemberByID | internal/domain/member_domain.go:83-95 | Succeeds exactly when the read works and the id is stored, returning that row. Otherwise it returns the zero member together with the scan error. |
| MemberDomain.GetMemberByIDIdentifies | internal/domain/member_domain.go:223-243 | In a consistent database, a found member carries the id asked for. The zero member that comes with an error is no stored member. |
| MemberDomain.BuildQuery | internal/domain/member_domain.go:187-221 | The builder produces the listing of the filter's term and paging. |
| MemberDomain.QueryShape | internal/domain/member_domain.go:196-218 | An empty term gives no WHERE and no argument. A non-empty one gives the full_name LIKE group bound to the lower-cased term. LIMIT/OFFSET, bound to per and `(page-1)*per`, appears exactly when page and per are positive. |
| MemberDomain.SearchGroup | internal/domain/member_domain.go:196-208 | The search group is a single LIKE on full_name. |
| MemberDomain.QueryPlaceholders | internal/domain/member_domain.go:192-218 | The placeholders are `$1 … $n` for the n bound arguments. |
| MemberDomain.GetMembers | internal/domain/member_domain.go:128-166 | Queries the unpaged listing and returns all rows, or an empty list with the query or scan error. |
| MemberDomain.GetMembersCount | internal/domain/member_domain.go:111-126 | Counts over the unpaged statement, and returns 0 with the error when the read fails. |
| ProcedureDomain.CreateProcedure | internal/domain/procedure_domain.go:41-78 | The procedure table after the call is the upsert of the procedure, or unchanged with the error. The method keeps the database consistent. |
| ProcedureDomain.GetProcedureByCode | internal/domain/procedure_domain.go:93-104 | Succeeds exactly when the read works and some stored procedure has exactly that code, returning such a row. Otherwise it returns the zero procedure with the scan error. |
| ProcedureDomain.BuildQuery | internal/domain/procedure_domain.go:191-219 | The builder produces the unpaged listing of the filter's term, ignoring page and per. |
| ProcedureDomain.NeverPaged | internal/domain/procedure_domain.go:191-219 | Whatever the paging, the statement never has LIMIT/OFFSET. An empty term leaves it unchanged and binds nothing. A non-empty one adds the group and binds the lower-cased term twice. |
| ProcedureDomain.SearchGroup | internal/domain/procedure_domain.go:199-211 | The search group is LIKE on code, OR LIKE on description. |
| ProcedureDomain.QueryPlaceholders | internal/domain/procedure_domain.go:195-218 | The placeholders are `$1 … $n` for the n bound arguments. |
| ProviderDomain.CreateProvider | internal/domain/provider_domain.go:41-75 | The provider table after the call is the upsert of the provider, or unchanged with the error. The method keeps the database consistent. |
| ProviderDomain.BuildQuery | internal/domain/provider_domain.go:177-207 | The builder produces the listing of the filter's term and paging. |
| ProviderDomain.QueryShape | internal/domain/provider_domain.go:185-204 | An empty term gives no WHERE and no argument. A non-empty one gives the group, binding the lower-cased term twice. LIMIT/OFFSET appears exactly when page and per are positive. |
| ProviderDomain.SearchGroup | internal/domain/provider_domain.go:185-195 | The search group is LIKE on name, OR LIKE on location. |
| ProviderDomain.QueryPlaceholders | internal/domain/provider_domain.go:181-204 | The placeholders are `$1 … $n` for the n bound arguments. |
| UserDomain.CreateUser | internal/domain/user_domain.go:43-76 | The user table after the call is the upsert of the user, or unchanged with the error. The method keeps the database consistent. |
| UserDomain.LookupUser | internal/domain/user_domain.go:184-201 | A lookup on a non-key column returns a user exactly when the read works and some stored user matches, and the user it returns is a stored match. Otherwise it returns no user (nil) together with the scan error. |
| UserDomain.GetUserByUsername | internal/domain/user_domain.go:91-103 | A found user has that username. Without a read fault, a user is found exactly when one is stored with it. |
| UserDomain.GetUserByEmail | internal/domain/user_domain.go:105-116 | A found user has that email. Without a read fault, a user is found exactly when one is stored with it. |
| UserDomain.BuildQuery | internal/domain/user_domain.go:203-230 | The builder produces the listing of the filter's term and paging. |
| UserDomain.QueryShape | internal/domain/user_domain.go:211-228 | An empty term gives no WHERE and no argument. A non-empty one gives the group, binding the lower-cased term twice. LIMIT/OFFSET appears exactly when page and per are positive. |
| UserDomain.SearchGroup | internal/domain/user_domain.go:211-220 | The search group is LIKE on username, OR LIKE on email. |
| UserDomain.QueryPlaceholders | internal/domain/user_domain.go:207-228 | The placeholders are `$1 … $n` for the n bound arguments. |
| QueryBuilder.AppendEquality | internal/domain/claim._domain.go:239-243 | One equality filter draws the next placeholder, appends `col = $k` and binds the value. |
| QueryBuilder.AppendTermGroup | internal/domain/claim._domain.go:251-264 | The column loop draws one placeholder per column. It appends the OR'ed group of LIKE clauses numbered from the next placeholder, and binds the lower-cased term once per column. |
| QueryBuilder.Finish | internal/domain/claim._domain.go:266-273 | WHERE with the conditions AND'ed if there are any, then, when paging, LIMIT and OFFSET on the next two placeholders bound to per and the offset. |
| QueryBuilder.SearchAndFinish | internal/domain/claim._domain.go:251-275 | Started from the builder state of some equality filters, the remaining steps produce exactly their listing statement. |
| QueryBuilder.ListingShape | internal/domain/claim._domain.go:235-275 | WHERE appears exactly when some condition does. Equality filters come first with their values in order, then the search group with the lower-cased term once per column. A paged statement is the unpaged one plus LIMIT/OFFSET bound to per and the offset. |
| QueryBuilder.ListingPlaceholders | internal/domain/claim._domain.go:235-273 | For any base statement, filters, columns without digits or `$`, term and paging, the statement's placeholders are the base's followed by `$1 … $n`, n being the number of arguments. |
| QueryBuilder.SearchOnlyListing | internal/domain/user_domain.go:211-229 | A listing without equality filters is the base statement, then the search group for a non-empty term, then LIMIT/OFFSET when paging. |
| QueryBuilder.OffsetOfSmallPages | internal/domain/claim._domain.go:270-273 | For positive page and per, the offset is `(page-1)*per`, non-negative, whenever that fits in 64 bits. |
| Strconv.WrapInt64 | internal/domain/claim._domain.go:272 | Go's `int` arithmetic: the result is in the 64-bit range, congruent to the exact value modulo 2^64, and equal to it when it fits. |
| Filters.NullValue | internal/ctxfilter/filter.go:29 | The empty string becomes nil; any other string becomes a pointer to itself. |
| Filters.Filter.constructor | internal/ctxfilter/filter.go:18 | A new filter has every field at its zero value. |
| Filters.Filter.Unpaged | internal/models/filter.go:56-68 | A new filter carries the given selection criteria and has every other field at its zero value. |
| Filters.Filter.NoPagination | internal/models/filter.go:55-69 | Returns a fresh filter with page and per 0, so it is not paged. It keeps from, to, term, uuid, status, type, token, valid, active, member and provider. It drops year, reference, the parsed times and the count flag. The receiver is untouched. |
| Filters.Filter.ExportLimit | internal/models/filter.go:76-80 | Sets page 1 and per 1000, which makes the filter paged, and changes no other field. |
| Filters.Filter.ConvertTime | internal/models/filter.go:33-53 | An incomplete range (TimeFilterSet false: an end missing or empty, as internal/models/filter.go:71-74 tests) errors and changes nothing. An unparsable from errors and changes nothing. An unparsable to errors after fromTime is already set. The call succeeds exactly when both ends parse, storing both times. |
| CtxFilter.PagingParam | internal/ctxfilter/filter.go:75-85 | A trimmed blank parameter gives the default. Otherwise the result parses exactly when Atoi accepts the trimmed text, yields that value, and errors with the trimmed text. |
| CtxFilter.PaginationFromContext | internal/ctxfilter/filter.go:66-100 | The method yields the page and per of the specification, or its error for the first malformed one. |
| CtxFilter.PaginationDefaults | internal/ctxfilter/filter.go:70-99 | A blank or absent page is 1 and a blank or absent per is 20, whichever the other is. Parameters made only of white space give both defaults. |
| CtxFilter.PageErrorFirst | internal/ctxfilter/filter.go:75-85 | A malformed page is the error, whatever per holds. |
| CtxFilter.DecimalPagingPassesThrough | internal/ctxfilter/filter.go:75-99 | Any 64-bit decimal page and per, zero and negative included, with any white space around, are accepted unchanged. |
| CtxFilter.DecimalParses | internal/ctxfilter/filter.go:75-77 | Trimming a white-space-padded decimal gives the decimal, which Atoi reads back. |
| CtxFilter.OptionalBool | internal/ctxfilter/filter.go:37-48 | A blank flag stays unset. Otherwise the flag is set exactly when ParseBool accepts the trimmed text, and a rejected text is a BadRequest. |
| CtxFilter.OptionalBoolRoundTrip | internal/ctxfilter/filter.go:37-48 | "true" or "false", with any white space around, reads back as that boolean. |
| CtxFilter.FlagsOrder | internal/ctxfilter/filter.go:37-61 | There is an error exactly when a non-blank flag does not parse. A malformed "active" leaves both flags unset. A malformed "is_active" keeps the "active" flag already read. Blank parameters leave the flags unset. |
| CtxFilter.ReadFlags | internal/ctxfilter/filter.go:37-61 | The method reads "active" then "is_active" and stops at the first malformed one, as the flag specification says. |
| CtxFilter.ReadFilter | internal/ctxfilter/filter.go:25-63 | The new filter has the parsed page and per, and every text field trimmed from its parameter, with status nil when blank. Fields that are not read are left at zero, and the flags and error are as specified. |
| CtxFilter.FilterFromContext | internal/ctxfilter/filter.go:14-64 | A pagination error returns the zero filter with that error before anything else is read. Otherwise the filter is read from the query string. |
| Strings.ToLower | internal/domain/user_domain.go:214 | Same length, each character lower-cased. |
| Strings.ToLowerIdempotent | internal/domain/user_domain.go:214 | Lower-casing twice is lower-casing once. |
| Strings.TrimSpaceSpec | internal/ctxfilter/filter.go:27 | The trimmed string is an infix of the input with only white space before and after it. |
| Strings.TrimSpace | internal/ctxfilter/filter.go:27 | The result is no longer than the input and has no white space at either end. |
| Strings.TrimSpaceBlank | internal/ctxfilter/filter.go:75-76 | Trimming gives "" exactly when the input is all white space. |
| Strings.TrimSpaceOfPadded | internal/ctxfilter/filter.go:27 | Trimming a white-space-padded text without surrounding white space gives that text back. |
| Strings.Fields | internal/middleware/auth_middleware.go:32 | Every field is non-empty and free of white space. |
| Strings.FieldsEmptyIffBlank | internal/middleware/auth_middleware.go:32-33 | There are no fields exactly when the string is all white space. |
| Strings.FieldsOfTwoWords | internal/middleware/auth_middleware.go:32-33 | Two words separated and surrounded by white space split into exactly those two fields. |
| Strings.JoinOfThree | internal/domain/claim._domain.go:263 | Joining three parts puts the separator between each pair. |
| Strings.DigitsValueOfNatToString | internal/domain/claim._domain.go:240 | The decimal rendering `%d` of a placeholder number reads back as that number. |
| Strconv.Atoi | internal/ctxfilter/filter.go:77 | Accepts only non-empty text whose value fits in 64 bits. A negative value needs a leading minus. |
| Strconv.ParseBool | internal/ctxfilter/filter.go:39 | Accepts only spellings of one to five characters. The value is true exactly when the first character is 1, t or T. |
| Strconv.AtoiRoundTrip | internal/ctxfilter/filter.go:77 | Atoi reads back every 64-bit integer written in decimal, with a minus sign when negative. |
| Strconv.AtoiRejectsSpace | internal/ctxfilter/filter.go:75-77 | Text that Atoi accepts is non-empty and contains no white space. |
| Strconv.ParseBoolRoundTrip | internal/ctxfilter/filter.go:39 | ParseBool reads back "true" and "false". |
| UserService.Register | internal/services/user_service.go:31-66 | The method leaves the database and answer of the registration specification. |
| UserService.RegistrationGuards | internal/services/user_service.go:36-53 | Missing names are a BadRequest. A stored username (read without fault) is a username conflict, checked before the email. A stored email, read without fault and with the username free, is an email conflict, and an email conflict means a stored email was read. A failed registration writes nothing. |
| UserService.RegistrationCreatesOneUser | internal/services/user_service.go:50-65 | A success inserts exactly one user under the next id: active, with the hash of the password, and no other table changes. When read without fault, no stored user had that username or that email. |
| UserService.RegistrationKeepsUsernamesUnique | internal/services/user_service.go:40-43 | When the username lookup does not fail, registration keeps usernames unique. |
| UserService.ValidateCredentials | internal/services/user_service.go:96-117 | A success returns a stored, active user with that username whose hash the password matches. Every failure is "invalid username or password" or "account is inactive". |
| UserService.CredentialChecks | internal/services/user_service.go:103-116 | An unknown user, a failed read and a wrong password give the same error. An inactive account is refused before the password is checked. For an active user, success is exactly a password match. |
| AuthMiddleware.Classify | internal/middleware/auth_middleware.go:22-42 | The header is missing exactly when it is empty. It is a bearer token exactly when it splits into two white-space-separated fields, the first equal to "Bearer" in any letter case. The token is the second field. |
| AuthMiddleware.BlankHeaderIsMalformed | internal/middleware/auth_middleware.go:23-39 | A non-empty header of only white space is malformed, not missing. |
| AuthMiddleware.BearerHeader | internal/middleware/auth_middleware.go:32-42 | "Bearer" in any letter case, white space, and a token, padded by any white space, gives back exactly that token. |
| AuthMiddleware.OtherSchemeIsMalformed | internal/middleware/auth_middleware.go:32-39 | Any other scheme is malformed, whatever the token. |
| AuthMiddleware.Authenticate | internal/middleware/auth_middleware.go:22-53 | Every refusal is 401. A request is admitted exactly when the header holds a bearer token the verifier accepts, and it carries the verifier's payload. |
| AuthMiddleware.RefusalCodes | internal/middleware/auth_middleware.go:23-50 | In order, the refusals are MISSING_TOKEN for no header, INVALID_TOKEN_FORMAT for a malformed one, and INVALID_TOKEN with the verifier's message for a refused token. |
| AuthMiddleware.GinContext.GetHeader | internal/middleware/auth_middleware.go:22 | An absent header reads as ""; a present one reads as its value. |
| AuthMiddleware.Handle | internal/middleware/auth_middleware.go:18-55 | A refused request is aborted with its status and body, nothing stored and the chain not continued. An admitted one stores the payload under "auth_payload" and continues. |

## Left out

- Concurrency: the read-then-write of a member's used amount is not locked in the code, so concurrent submissions can overspend. The model covers one call at a time.
- Amounts are `float64` in the code; the model uses exact integer cents. Rounding and NaN are not modelled.
- SQL is not interpreted. Each statement is modelled by its effect on the tables, and whether the database refuses it is a parameter.
- Connection pools, `InitDB` and driver errors are not modelled beyond a refusal flag.
- `scanRow` column decoding and `ClaimStatus.Scan`/`Value` (database-driver hooks) are not modelled.
- `rows.Err()` after the loop is folded into the result of the row scans.
- The serial id sequence is not rolled back with a transaction in PostgreSQL. The model restores it with the snapshot. Only the ids assigned after a failed transaction differ.
- The creation and update timestamps (`Touch`) are not modelled.
- `IsNew` is taken to mean "id is zero". The identifier types are not part of this model.
- A lookup on a non-key column (procedure code, username, email) may match several rows, and PostgreSQL returns an unspecified one. The model takes the row with the smallest id.
- `utils.NewPlaceholder` is not part of this model. Its counter is taken to start at 0, with `Touch` returning the incremented value.
- The `null` package is not part of this model. `NullValue` is taken to map "" to nil and any other string to a pointer to it.
- Placeholders: statements are proved relative to the base statement's own placeholders. The listing base statements have none.
- Strings.ToLower: only ASCII letters are lower-cased. Go's Unicode case mapping is not modelled.
- AuthMiddleware.Classify: `strings.EqualFold` is modelled by ASCII case folding. This is exact for comparison with "Bearer".
- Text is a sequence of Unicode characters. Go's strings are UTF-8 bytes, and invalid UTF-8 input is not modelled.
- JWT verification (HMAC and wall-clock time) is a parameter of the middleware. `GetAuthPayload`'s type assertion is not modelled.
- Gin's canonical header-name form is not modelled: headers are looked up by the exact name.
- bcrypt hashing and checking are parameters of registration and login.
- Time parsing (`utils.ParseTime`) is a parameter of `ConvertTime`. Fractional and zoned times are whatever the parameter says.
- Error values are modelled by kind and message. The wrapped Go `error` chains and `log.Printf` output are not modelled.
- CtxFilter.PaginationFromContext: on a parse error the code also returns the partly parsed page and per. Its only caller discards them, so the model does not state them.
- CtxFilter.FilterFromContext: the code assigns the fields one by one into a filter it allocated first. The model gathers the values and stores them into a fresh filter, which leaves the same fields.
- Records are passed by value. The code's in-place update of `claim.ID`/`member.UsedAmount` through pointers appears as the returned record.
- These are thin wrappers over the modelled domain calls and are left out: the claim service's `GetClaimByID`, `GetClaimByMemberID`, `GetClaimByProviderID`, `GetClaims` (listing, count and pagination envelope) and `DeleteClaim`, the user service's `GetUserByID` and `GetUserByUsername`, and the member, procedure and provider services.
- The domain files' `Delete*`, the `Get*ByID` lookups of the tables other than members, `GetMemberByFullName`, `GetClaimByMemberID`/`GetClaimByProviderID`, and the procedure, provider and user listings are left out. They are single statements of the same shape as the modelled ones.
- HTTP handlers, routing, startup and configuration are framework glue and are not modelled.
- Models.DomainConstant: the lower-case status constants of `custom_types` are modelled only to show that they never match what the service writes. Nothing in the core writes them.

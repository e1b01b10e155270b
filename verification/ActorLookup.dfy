/** Finding an actor id: the database row first, the API when the database gives none
    (internal/alkemio/db_resolver.go and internal/alkemio/composite_resolver.go). */
module ActorLookup {
  import opened Wrappers
  import opened Text
  import opened UuidText
  import IdentityResolver

  datatype DbError = DbIdRequired | DbIdNotUuid | DbNotFound | DbQueryFailed | DbInvalidActorId

  /** What `SELECT id FROM "user" WHERE "authenticationID" = $1` comes back with. */
  datatype QueryReply = NoRows | QueryFailed | Row(valid: bool, bytes: Uuid)

  /** uuidToString. */
  function RowText(row: QueryReply): string
    requires row.Row?
  {
    if !row.valid then "" else Print(row.bytes)
  }

  /** DatabaseResolver.Resolve. */
  function DatabaseResolve(query: Uuid -> QueryReply, authenticationId: string): Result<string, DbError> {
    var id := TrimSpace(authenticationId);
    if id == "" then Err(DbIdRequired)
    else if Parse(id).None? then Err(DbIdNotUuid)
    else
      var row := query(Parse(id).value);
      if row.QueryFailed? then Err(DbQueryFailed)
      else if row.NoRows? then Err(DbNotFound)
      else if !row.valid then Err(DbNotFound)
      else if RowText(row) == "" then Err(DbNotFound)
      else if !IsUuid(RowText(row)) then Err(DbInvalidActorId)
      else Ok(RowText(row))
  }

  /** The identity as the database knows it. */
  function KeyOf(authenticationId: string): Option<Uuid> {
    Parse(TrimSpace(authenticationId))
  }

  /** The database has a row for the identity. */
  predicate HasRow(query: Uuid -> QueryReply, authenticationId: string) {
    && KeyOf(authenticationId).Some?
    && query(KeyOf(authenticationId).value).Row? && query(KeyOf(authenticationId).value).valid
  }

  lemma RowTextIsUuid(row: QueryReply)
    requires row.Row? && row.valid
    ensures RowText(row) != "" && IsUuid(RowText(row)) && Parse(RowText(row)) == Some(row.bytes)
  {
    ParsePrint(row.bytes);
  }

  /** A lookup succeeds exactly when the id is a UUID with a valid row, and then gives the
      canonical text of that row: neither check on the printed id can fail. */
  lemma ValidRowAlwaysResolves(query: Uuid -> QueryReply, authenticationId: string)
    ensures DatabaseResolve(query, authenticationId).Ok? <==> HasRow(query, authenticationId)
    ensures HasRow(query, authenticationId) ==>
              var r := DatabaseResolve(query, authenticationId);
              var bytes := query(KeyOf(authenticationId).value).bytes;
              r.value == Print(bytes) && Parse(r.value) == Some(bytes)
    ensures DatabaseResolve(query, authenticationId) != Err(DbInvalidActorId)
  {
    if KeyOf(authenticationId).Some? {
      var row := query(KeyOf(authenticationId).value);
      if row.Row? && row.valid {
        RowTextIsUuid(row);
      }
    }
  }

  /** Different spellings of one UUID find the same actor. */
  lemma SpellingDoesNotMatter(query: Uuid -> QueryReply, a: string, b: string)
    requires KeyOf(a) == KeyOf(b) && KeyOf(a).Some?
    ensures DatabaseResolve(query, a) == DatabaseResolve(query, b)
  {
    assert TrimSpace(a) != "" && TrimSpace(b) != "";
  }

  /** CompositeResolver.Resolve; `db` is None when no database is configured. */
  function CompositeResolve(
    db: Option<Result<string, DbError>>, api: Result<string, IdentityResolver.ResolveError>)
    : Result<string, IdentityResolver.ResolveError>
  {
    if db.Some? && db.value.Ok? then Ok(db.value.value) else api
  }

  /** A row in the database decides; without one, and without a database, the answer is the
      API's, whatever it is. */
  lemma DatabaseDecidesFirst(
    query: Uuid -> QueryReply, authenticationId: string, api: Result<string, IdentityResolver.ResolveError>)
    ensures CompositeResolve(None, api) == api
    ensures CompositeResolve(Some(DatabaseResolve(query, authenticationId)), api)
         == if HasRow(query, authenticationId) then Ok(Print(query(KeyOf(authenticationId).value).bytes)) else api
  {
    ValidRowAlwaysResolves(query, authenticationId);
  }
}

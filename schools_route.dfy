/**
 * The request handler of `pages/api/schools/index.js`: GET lists the schools, POST adds one,
 * any other method is refused with 405. Each request picks its store with `hasMysqlEnv`.
 *
 * The MySQL side is not visible here: a `SqlServer` value gives the answers the database would
 * return to this one request, and the handler reports the statements it issued.
 */
module SchoolsRoute {
  import opened Wrappers
  import opened BackendSelection
  import opened Upload
  import opened Fields
  import opened JsonStore

  datatype Route = GetSchools | PostSchool | OtherMethod

  /** The method dispatch: `req.method` is compared exactly, case included. */
  function RouteOf(verb: string): (r: Route)
    ensures r == GetSchools <==> verb == "GET"
    ensures r == PostSchool <==> verb == "POST"
  {
    if verb == "GET" then GetSchools
    else if verb == "POST" then PostSchool
    else OtherMethod
  }

  /** formidable's answer for a POST body: the text fields and `files.image`. */
  datatype Form = Form(fields: map<string, string>, files: ImageField)

  /** A request: its method (`verb`) and, for a POST, the parsed form or nothing when parsing was rejected. */
  datatype Request = Request(verb: string, form: Option<Form>)

  /** A row of the database listing (line 67): only the id, name, address, city and image columns. */
  datatype Listing = Listing(id: int, name: string, address: string, city: string, image: Option<string>)

  /**
   * The database's answers to one request: whether `ensureSchema` succeeds, the rows of the
   * listing query (nothing when it fails) and the `insertId` of the insert (nothing when it fails).
   */
  datatype SqlServer = SqlServer(schemaReady: bool, rows: Option<seq<Listing>>, insertId: Option<int>)

  /** The calls the handler makes on the database. */
  datatype SqlCall = EnsureSchema | SelectSchools | InsertSchool(fields: SchoolFields, image: Option<string>)

  datatype Body =
    | StoredSchools(schools: seq<School>)   // `{ schools }` read from the JSON file
    | ListedRows(rows: seq<Listing>)        // `{ schools: rows }` from the database
    | NewId(id: int)                        // `{ id }`
    | ErrorJson(error: string)              // `{ error }`
    | MethodNotAllowed(allow: seq<string>, text: string)

  datatype Response = Response(status: int, body: Body)

  const FetchFailed: Response := Response(500, ErrorJson("Failed to fetch schools"))
  const AddFailed: Response := Response(500, ErrorJson("Failed to add school"))
  const MissingFields: Response := Response(400, ErrorJson("Missing required fields"))
  const NotAllowed: Response := Response(405, MethodNotAllowed(["GET", "POST"], "Method Not Allowed"))

  /** Lines 62-76. */
  method HandleGet(env: map<string, string>, db: SqlServer, store: FileStore) returns (res: Response, calls: seq<SqlCall>)
    modifies store
    ensures HasMysqlEnv(env) ==>
      && store.file == old(store.file)
      && calls == (if db.schemaReady then [EnsureSchema, SelectSchools] else [EnsureSchema])
      && res == (if db.schemaReady && db.rows.Some? then Response(200, ListedRows(db.rows.value)) else FetchFailed)
    ensures !HasMysqlEnv(env) ==>
      && calls == []
      && store.file == (if old(store.file) == Missing && store.writable then Holds([]) else old(store.file))
      && res == (if old(store.file) == Missing && !store.writable then FetchFailed
                 else Response(200, StoredSchools(old(store.Contents()))))
  {
    if SelectBackend(env) == Relational {
      calls := [EnsureSchema];
      if !db.schemaReady {
        return FetchFailed, calls;
      }
      calls := calls + [SelectSchools];
      match db.rows
      case None => return FetchFailed, calls;
      case Some(rows) => return Response(200, ListedRows(rows)), calls;
    }
    calls := [];
    var schools := store.ReadJsonSchools();
    match schools
    case None => return FetchFailed, calls;
    case Some(s) => return Response(200, StoredSchools(s)), calls;
  }

  /**
   * Lines 103-118: a validated submission goes to the database when it is configured, to the
   * JSON file otherwise; the other store is left alone.
   */
  method StoreSubmission(f: SchoolFields, image: Option<string>, env: map<string, string>, db: SqlServer, store: FileStore)
    returns (res: Response, calls: seq<SqlCall>)
    modifies store
    ensures HasMysqlEnv(env) ==>
      && store.file == old(store.file)
      && calls == (if db.schemaReady then [EnsureSchema, InsertSchool(f, image)] else [EnsureSchema])
      && res == (if db.schemaReady && db.insertId.Some? then Response(201, NewId(db.insertId.value)) else AddFailed)
    ensures !HasMysqlEnv(env) ==> calls == []
    ensures !HasMysqlEnv(env) && store.writable ==>
      && res == Response(201, NewId(NextId(old(store.Contents()))))
      && store.file == Holds(Created(old(store.Contents()), f, image))
    ensures !HasMysqlEnv(env) && !store.writable ==> res == AddFailed && store.file == old(store.file)
  {
    calls := [];
    if SelectBackend(env) == Relational {
      calls := [EnsureSchema];
      if !db.schemaReady {
        return AddFailed, calls;
      }
      calls := calls + [InsertSchool(f, image)];
      match db.insertId
      case None => return AddFailed, calls;
      case Some(id) => return Response(201, NewId(id)), calls;
    }
    var id := store.Create(f, image);
    match id
    case None => return AddFailed, calls;
    case Some(n) => return Response(201, NewId(n)), calls;
  }

  /**
   * Lines 78-123. A rejected parse is a 500 and a failed required-field check a 400; in both
   * cases nothing is stored and no statement is sent.
   */
  method HandlePost(form: Option<Form>, env: map<string, string>, db: SqlServer, store: FileStore)
    returns (res: Response, calls: seq<SqlCall>)
    modifies store
    ensures form.None? ==> res == AddFailed && calls == [] && store.file == old(store.file)
    ensures form.Some? && ValidateSubmission(form.value.fields).None? ==>
      res == MissingFields && calls == [] && store.file == old(store.file)
    ensures form.Some? && ValidateSubmission(form.value.fields).Some? ==>
      var f := ValidateSubmission(form.value.fields).value;
      var image := ImageRelPath(form.value.files);
      && (HasMysqlEnv(env) ==>
            && store.file == old(store.file)
            && calls == (if db.schemaReady then [EnsureSchema, InsertSchool(f, image)] else [EnsureSchema])
            && res == (if db.schemaReady && db.insertId.Some? then Response(201, NewId(db.insertId.value)) else AddFailed))
      && (!HasMysqlEnv(env) ==> calls == [])
      && (!HasMysqlEnv(env) && store.writable ==>
            && res == Response(201, NewId(NextId(old(store.Contents()))))
            && store.file == Holds(Created(old(store.Contents()), f, image)))
      && (!HasMysqlEnv(env) && !store.writable ==> res == AddFailed && store.file == old(store.file))
  {
    if form.None? {
      return AddFailed, [];
    }
    var fields := ValidateSubmission(form.value.fields);
    if fields.None? {
      return MissingFields, [];
    }
    res, calls := StoreSubmission(fields.value, ImageRelPath(form.value.files), env, db, store);
  }

  /** Lines 61-127: the handler. */
  method Handle(req: Request, env: map<string, string>, db: SqlServer, store: FileStore)
    returns (res: Response, calls: seq<SqlCall>)
    modifies store
    ensures req.verb == "GET" ==> res.status == 200 || res.status == 500
    ensures req.verb == "GET" && HasMysqlEnv(env) ==>
      && calls == (if db.schemaReady then [EnsureSchema, SelectSchools] else [EnsureSchema])
      && res == (if db.schemaReady && db.rows.Some? then Response(200, ListedRows(db.rows.value)) else FetchFailed)
    ensures req.verb == "GET" && !HasMysqlEnv(env) ==>
      && calls == []
      && store.file == (if old(store.file) == Missing && store.writable then Holds([]) else old(store.file))
      && res == (if old(store.file) == Missing && !store.writable then FetchFailed
                 else Response(200, StoredSchools(old(store.Contents()))))
    ensures req.verb == "POST" ==>
      (res.status == 201 || res.status == 400 || res.status == 500) &&
      (res.status == 400 <==> req.form.Some? && ValidateSubmission(req.form.value.fields).None?)
    ensures req.verb == "POST" && res.status != 201 && !HasMysqlEnv(env) ==> store.file == old(store.file)
    ensures req.verb == "POST" && req.form.None? ==> res == AddFailed && calls == [] && store.file == old(store.file)
    ensures req.verb == "POST" && req.form.Some? && ValidateSubmission(req.form.value.fields).None? ==>
      res == MissingFields && calls == [] && store.file == old(store.file)
    ensures req.verb == "POST" && req.form.Some? && ValidateSubmission(req.form.value.fields).Some? ==>
      var f := ValidateSubmission(req.form.value.fields).value;
      var image := ImageRelPath(req.form.value.files);
      && (HasMysqlEnv(env) ==>
            && calls == (if db.schemaReady then [EnsureSchema, InsertSchool(f, image)] else [EnsureSchema])
            && res == (if db.schemaReady && db.insertId.Some? then Response(201, NewId(db.insertId.value)) else AddFailed))
      && (!HasMysqlEnv(env) ==> calls == [])
      && (!HasMysqlEnv(env) && store.writable ==>
            && res == Response(201, NewId(NextId(old(store.Contents()))))
            && store.file == Holds(Created(old(store.Contents()), f, image)))
      && (!HasMysqlEnv(env) && !store.writable ==> res == AddFailed && store.file == old(store.file))
    ensures req.verb != "GET" && req.verb != "POST" ==>
      res == NotAllowed && calls == [] && store.file == old(store.file)
    ensures HasMysqlEnv(env) ==> store.file == old(store.file)
  {
    match RouteOf(req.verb)
    case GetSchools =>
      res, calls := HandleGet(env, db, store);
    case PostSchool =>
      res, calls := HandlePost(req.form, env, db, store);
    case OtherMethod =>
      res, calls := NotAllowed, [];
  }

  /**
   * A create followed by a listing, both on the JSON file: the listing is the earlier records in
   * stored order, then the new one with the submitted values and the id the POST answered.
   */
  method PostThenGet(form: Form, env: map<string, string>, db: SqlServer, store: FileStore)
    returns (posted: Response, listed: Response)
    requires !HasMysqlEnv(env) && store.writable && AllRequiredProvided(form.fields)
    modifies store
    ensures var before := old(store.Contents());
            var added := NewSchool(NextId(before), ValidateSubmission(form.fields).value, ImageRelPath(form.files));
            && posted == Response(201, NewId(NextId(before)))
            && listed == Response(200, StoredSchools(before + [added]))
  {
    var calls;
    posted, calls := HandlePost(Some(form), env, db, store);
    listed, calls := HandleGet(env, db, store);
  }
}

/** One request to the tool, in the order the script handles it: the login
    branch, the logout branch, the sidebar `?load=` shortcut, the POST
    dispatcher (run, save, export, delete, load), and finally, when the stored
    credential is valid, the database listing and the persistence of the
    selected database. Markup is not modelled: the page is the data it shows. */
module Requests {
  import opened Php
  import opened Credentials
  import opened Execution
  import opened SavedQueries
  import opened Export

  /** A request: the POST body (None for a GET request) and the query string. */
  datatype Request = Request(post: Option<map<string, string>>, query: map<string, string>)

  /** The driver's answer to the listing connection and `SHOW DATABASES`. */
  datatype DatabaseListing =
    | ListConnectFailed(message: string)
    | ListQueryFailed
    | Listed(names: seq<string>)

  /** Everything the request takes from outside: `time()` as read by login and
      the dispatcher's credentials check (`now`) and as read again by the check
      before the listing (`listNow`), `uniqid()`, the two `date()` texts, and the
      driver's replies to the script and to the listing. */
  datatype Environment = Environment(
    now: int,
    listNow: int,
    freshId: string,
    savedAt: string,
    exportStamp: string,
    script: ScriptReply,
    listing: DatabaseListing)

  /** The parameters handed to `new mysqli(...)` by run and export. */
  datatype Target = Target(host: string, user: string, pass: string, database: string)

  /** A redirect (after login or logout), a CSV download (export), or the page. */
  datatype Response =
    | Redirect
    | Download(filename: string, separator: char, records: seq<seq<string>>, target: Target)
    | Page(
        loginError: Option<string>,
        messages: seq<string>,
        error: Option<string>,
        results: Option<seq<Entry>>,
        currentSql: string,
        databases: seq<string>,
        selectedDb: string,
        queried: Option<Target>)

  const CredentialsErrorMessage: string := "Database credentials are missing or expired. Please log in."
  const DefaultSql: string := "SELECT 1;"
  const ListErrorPrefix: string := "Could not list databases: "

  /** `$_POST[$k] ?? null`; a GET request has an empty `$_POST`. */
  function PostValue(req: Request, k: string): (r: Option<string>)
    ensures r.Some? <==> req.post.Some? && k in req.post.value
    ensures r.Some? ==> r.value == req.post.value[k]
  {
    if req.post.Some? then Lookup(req.post.value, k) else None
  }

  /** `$_POST[$k] ?? ''`. */
  function PostField(req: Request, k: string): (v: string)
    ensures req.post.Some? && k in req.post.value ==> v == req.post.value[k]
    ensures !(req.post.Some? && k in req.post.value) ==> v == ""
  {
    if req.post.Some? then Field(req.post.value, k) else ""
  }

  /** `isset($_POST['action']) && $_POST['action'] === $action`, and the same
      test written with `$_POST['action'] ?? ''` for a non-empty action. */
  predicate IsAction(req: Request, action: string): (holds: bool)
    ensures holds <==> req.post.Some? && "action" in req.post.value && req.post.value["action"] == action
  {
    PostValue(req, "action") == Some(action)
  }

  /** The `?load=` shortcut: the saved query it names, if its id is truthy and present. */
  function SidebarLoad(st: Store, req: Request): (r: Option<SavedQuery>)
    ensures r.Some? <==> "load" in req.query && !PhpEmpty(req.query["load"]) && req.query["load"] in st.entries
    ensures r.Some? ==> r.value == st.entries[req.query["load"]]
  {
    if "load" in req.query then Find(st, req.query["load"]) else None
  }

  /** `$_POST['sql'] ?? ''` as the dispatcher sees it: the shortcut overwrites the posted SQL. */
  function SubmittedSql(st: Store, req: Request): (sql: string)
    ensures SidebarLoad(st, req).Some? ==> sql == SidebarLoad(st, req).value.sql
    ensures SidebarLoad(st, req).None? && PostValue(req, "sql").Some? ==> sql == PostValue(req, "sql").value
    ensures SidebarLoad(st, req).None? && PostValue(req, "sql").None? ==> sql == ""
  {
    var loaded := SidebarLoad(st, req);
    if loaded.Some? then loaded.value.sql else PostField(req, "sql")
  }

  /** The working database chosen for this request. */
  function SelectedDatabase(req: Request, c: Credential): (db: string)
    ensures PostValue(req, "selected_db").Some? ==> db == PostValue(req, "selected_db").value
    ensures PostValue(req, "selected_db").None? && "selected_db" in req.query ==> db == req.query["selected_db"]
    ensures PostValue(req, "selected_db").None? && "selected_db" !in req.query ==> db == c.database
  {
    ResolveDatabase(PostValue(req, "selected_db"), Lookup(req.query, "selected_db"), c.database)
  }

  /** The text of the editor: the shortcut's SQL, else the SQL a POST load found,
      else the posted SQL, else `SELECT 1;`. */
  function EditorSql(st: Store, req: Request): (sql: string)
    ensures SidebarLoad(st, req).Some? ==> sql == SidebarLoad(st, req).value.sql
    ensures SidebarLoad(st, req).None? && IsAction(req, "load") && Find(st, PostField(req, "id")).Some? ==>
      sql == Find(st, PostField(req, "id")).value.sql
    ensures SidebarLoad(st, req).None? && !(IsAction(req, "load") && Find(st, PostField(req, "id")).Some?) ==>
      sql == (if PostValue(req, "sql").Some? then PostValue(req, "sql").value else DefaultSql)
    ensures SidebarLoad(st, req).None? && req.post.None? ==> sql == DefaultSql
  {
    var loaded := SidebarLoad(st, req);
    var found := Find(st, PostField(req, "id"));
    if loaded.Some? then loaded.value.sql
    else if IsAction(req, "load") && found.Some? then found.value.sql
    else if PostValue(req, "sql").Some? then PostValue(req, "sql").value
    else DefaultSql
  }

  function LoadedMessage(name: string): string {
    "Loaded query '" + name + "'."
  }

  /** The messages the dispatcher adds: the save prompt or confirmation, and the
      delete and load confirmations when they find their id. */
  function ActionMessages(st: Store, req: Request): (ms: seq<string>)
    ensures |ms| <= 1
    ensures IsAction(req, "save") ==> |ms| == 1
    ensures IsAction(req, "delete") || IsAction(req, "load") ==>
      (ms != [] <==> Find(st, PostField(req, "id")).Some?)
    ensures !IsAction(req, "save") && !IsAction(req, "delete") && !IsAction(req, "load") ==> ms == []
  {
    var found := Find(st, PostField(req, "id"));
    if IsAction(req, "save") then
      var name := Trim(PostField(req, "name"));
      if name == "" then [NameMissingMessage] else [SavedMessage(name)]
    else if IsAction(req, "delete") then
      if found.Some? then [DeletedMessage(found.value.name)] else []
    else if IsAction(req, "load") then
      if found.Some? then [LoadedMessage(found.value.name)] else []
    else []
  }

  /** The databases shown in the select box: none unless `SHOW DATABASES` answered. */
  function ListedNames(listing: DatabaseListing): (names: seq<string>)
    ensures listing.Listed? ==> names == listing.names
    ensures !listing.Listed? ==> names == []
  {
    if listing.Listed? then listing.names else []
  }

  /** Only a refused listing connection adds a message; a failing
      `SHOW DATABASES` is silent. */
  function ListingMessages(listing: DatabaseListing): (ms: seq<string>)
    ensures ms != [] <==> listing.ListConnectFailed?
    ensures listing.ListConnectFailed? ==> ms == [ListErrorPrefix + ConnectErrorPrefix + listing.message]
  {
    if listing.ListConnectFailed? then [ListErrorPrefix + ConnectErrorPrefix + listing.message] else []
  }

  function TargetOf(req: Request, c: Credential): (t: Target)
    ensures t.host == c.host && t.user == c.user && t.pass == c.pass
    ensures t.database == SelectedDatabase(req, c)
  {
    Target(c.host, c.user, c.pass, SelectedDatabase(req, c))
  }

  /** `$error` as the dispatcher's credentials check (lines 113-115) leaves it. */
  function CheckError(stored: Option<Credential>, now: int): (error: Option<string>)
    ensures error.None? <==> CredentialsValid(stored, now)
    ensures error.Some? ==> error.value == CredentialsErrorMessage
  {
    if CredentialsValid(stored, now) then None else Some(CredentialsErrorMessage)
  }

  /** The login branch, then the logout branch; unless they redirect, the script goes on. */
  method LoginLogout(session: Session, req: Request, now: int) returns (redirect: bool, loginError: Option<string>)
    modifies session
    ensures IsAction(req, "login") ==>
      !redirect == LoginRejected(PostField(req, "host"), PostField(req, "user"), PostField(req, "cred_label"))
    ensures IsAction(req, "login") && redirect ==>
      session.stored == Some(LoginCredential(PostField(req, "host"), PostField(req, "user"),
        PostField(req, "pass"), PostField(req, "database"), PostField(req, "cred_label"), now))
    ensures IsAction(req, "logout") ==> redirect && session.stored == None
    ensures redirect ==> IsAction(req, "login") || IsAction(req, "logout")
    ensures !redirect ==> session.stored == old(session.stored)
    ensures loginError.Some? <==> IsAction(req, "login") && !redirect
    ensures loginError.Some? ==> loginError.value == LoginErrorMessage
  {
    redirect, loginError := false, None;
    if IsAction(req, "login") {
      loginError := session.Login(PostField(req, "host"), PostField(req, "user"), PostField(req, "pass"),
        PostField(req, "database"), PostField(req, "cred_label"), now);
      if loginError.None? {
        return true, None;
      }
    }
    if IsAction(req, "logout") {
      session.Logout();
      return true, None;
    }
  }

  /** The run branch: connect with the stored credential and the chosen database,
      then collect the replies. A failure replaces the credentials error. */
  method Run(c: Credential, req: Request, reply: ScriptReply, credError: Option<string>)
    returns (results: Option<seq<Entry>>, error: Option<string>, target: Target)
    ensures target == TargetOf(req, c)
    ensures reply.ConnectFailed? ==> results == None && error == Some(ConnectErrorPrefix + reply.message)
    ensures reply.Executed? && reply.first.Failed? ==>
      results == None && error == Some(QueryErrorPrefix + reply.first.message)
    ensures reply.Executed? && !reply.first.Failed? ==>
      error == credError && results.Some? && CollectedUpToFailure(Replies(reply), results.value)
  {
    target := TargetOf(req, c);
    var runError;
    results, runError := RunScript(reply);
    error := if runError.Some? then runError else credError;
  }

  /** The export branch. On success the script ends with the download; on failure
      the message replaces the credentials error and the page is shown. */
  method ExportCsv(c: Credential, req: Request, saved: seq<SavedQuery>, sql: string,
                   stamp: string, reply: ScriptReply)
    returns (download: Option<Response>, error: Option<string>, target: Target)
    ensures target == TargetOf(req, c)
    ensures reply.ConnectFailed? ==> download.None? && error == Some(ConnectErrorPrefix + reply.message)
    ensures reply.Executed? && reply.first.Failed? ==>
      download.None? && error == Some(QueryErrorPrefix + reply.first.message)
    ensures reply.Executed? && !reply.first.Failed? ==> download.Some? && download.value.Download?
    ensures download.Some? ==> (
      download.value.Download? && reply.Executed? && !reply.first.Failed? &&
      download.value.filename == Sanitize(RawFilename(FirstMatchName(saved, sql), stamp)) &&
      download.value.separator == Separator(PostValue(req, "sep")) &&
      download.value.target == target &&
      download.value.records == CsvRecords(reply.first))
  {
    var sep := Separator(PostValue(req, "sep"));
    target := TargetOf(req, c);
    download, error := None, None;
    if reply.ConnectFailed? {
      error := Some(ConnectErrorPrefix + reply.message);
      return;
    }
    if reply.first.Failed? {
      error := Some(QueryErrorPrefix + reply.first.message);
      return;
    }
    var base := FilenameBase(saved, sql);
    var safeName := Sanitize(RawFilename(base, stamp));
    var records := ExportRecords(reply.first);
    download := Some(Download(safeName, sep, records, target));
  }

  /** What the dispatcher leaves for the rest of the script: the messages and
      error so far, the run's results, `$_POST['sql']` and the connection used. */
  datatype Dispatched = Dispatched(
    messages: seq<string>,
    error: Option<string>,
    results: Option<seq<Entry>>,
    postSql: Option<string>,
    queried: Option<Target>)

  /** The branch shared by run, save and export: the credentials check only sets
      the error, then the action itself runs. */
  method RunSaveExport(stored: Option<Credential>, catalog: Catalog, req: Request, env: Environment,
                       postSql: Option<string>)
    returns (download: Option<Response>, out: Dispatched)
    requires catalog.Valid() && env.freshId !in catalog.entries
    requires IsAction(req, "run") || IsAction(req, "save") || IsAction(req, "export")
    requires (IsAction(req, "run") || IsAction(req, "export")) ==> stored.Some?
    modifies catalog
    ensures catalog.Valid()
    ensures out.postSql == postSql
    ensures out.messages == ActionMessages(old(catalog.View()), req)
    ensures CatalogEffect(old(catalog.View()), req, env, if postSql.Some? then postSql.value else "", catalog.View())
    ensures IsAction(req, "save") ==> (
      download.None? && out.results.None? && out.queried.None? &&
      out.error == CheckError(stored, env.now))
    ensures IsAction(req, "run") ==> (
      download.None? && out.queried == Some(TargetOf(req, stored.value)) &&
      (env.script.ConnectFailed? ==>
        out.results == None && out.error == Some(ConnectErrorPrefix + env.script.message)) &&
      (env.script.Executed? && env.script.first.Failed? ==>
        out.results == None && out.error == Some(QueryErrorPrefix + env.script.first.message)) &&
      (env.script.Executed? && !env.script.first.Failed? ==>
        out.results.Some? && CollectedUpToFailure(Replies(env.script), out.results.value) &&
        out.error == CheckError(stored, env.now)))
    ensures IsAction(req, "export") ==> (
      out.results.None? && out.queried == Some(TargetOf(req, stored.value)) &&
      (download.Some? <==> env.script.Executed? && !env.script.first.Failed?) &&
      (env.script.ConnectFailed? ==> out.error == Some(ConnectErrorPrefix + env.script.message)) &&
      (env.script.Executed? && env.script.first.Failed? ==>
        out.error == Some(QueryErrorPrefix + env.script.first.message)) &&
      (download.Some? ==> (
        download.value.Download? &&
        download.value.filename == Sanitize(RawFilename(FirstMatchName(Listing(catalog.View()),
          if postSql.Some? then postSql.value else ""), env.exportStamp)) &&
        download.value.separator == Separator(PostValue(req, "sep")) &&
        download.value.target == TargetOf(req, stored.value) &&
        download.value.records == CsvRecords(env.script.first))))
    ensures download.Some? ==> IsAction(req, "export")
  {
    var sql := if postSql.Some? then postSql.value else "";
    var messages: seq<string> := [];
    var error := CheckError(stored, env.now);
    var results: Option<seq<Entry>> := None;
    var queried: Option<Target> := None;
    download := None;
    if IsAction(req, "save") {
      var m := catalog.Save(env.freshId, PostField(req, "name"), sql, env.savedAt);
      messages := messages + [m];
    }
    if IsAction(req, "run") {
      var t;
      results, error, t := Run(stored.value, req, env.script, error);
      queried := Some(t);
    }
    if IsAction(req, "export") {
      var t;
      download, error, t := ExportCsv(stored.value, req, Listing(catalog.View()), sql,
        env.exportStamp, env.script);
      queried := Some(t);
    }
    out := Dispatched(messages, error, results, postSql, queried);
  }

  /** The delete and load branches of the dispatcher. */
  method DeleteOrLoad(catalog: Catalog, req: Request, postSql: Option<string>) returns (out: Dispatched)
    requires catalog.Valid()
    requires IsAction(req, "delete") || IsAction(req, "load")
    modifies catalog
    ensures catalog.Valid()
    ensures out.error.None? && out.results.None? && out.queried.None?
    ensures out.messages == ActionMessages(old(catalog.View()), req)
    ensures IsAction(req, "delete") ==> (
      out.postSql == postSql &&
      catalog.View() == (if Find(old(catalog.View()), PostField(req, "id")).Some?
        then Remove(old(catalog.View()), PostField(req, "id")) else old(catalog.View())))
    ensures IsAction(req, "load") ==> (
      catalog.View() == old(catalog.View()) &&
      var found := Find(catalog.View(), PostField(req, "id"));
      out.postSql == (if found.Some? then Some(found.value.sql) else postSql))
  {
    out := Dispatched([], None, None, postSql, None);
    if IsAction(req, "delete") {
      var m := catalog.Delete(PostField(req, "id"));
      if m.Some? {
        out := out.(messages := [m.value]);
      }
    } else {
      var found := Find(catalog.View(), PostField(req, "id"));
      if found.Some? {
        out := out.(postSql := Some(found.value.sql),
                    messages := [LoadedMessage(found.value.name)]);
      }
    }
  }

  /** The last step, run only while the stored credential is valid: list the
      databases, choose the working database and persist it when it is not ''. */
  method ListAndPersist(session: Session, req: Request, listing: DatabaseListing)
    returns (databases: seq<string>, selectedDb: string, messages: seq<string>)
    requires session.stored.Some?
    modifies session
    ensures selectedDb == SelectedDatabase(req, old(session.stored).value)
    ensures session.stored == Some(WithDatabase(old(session.stored).value, selectedDb))
    ensures databases == ListedNames(listing)
    ensures messages == ListingMessages(listing)
  {
    databases, messages := [], [];
    match listing {
      case ListConnectFailed(msg) =>
        messages := [ListErrorPrefix + ConnectErrorPrefix + msg];
      case ListQueryFailed =>
      case Listed(names) =>
        databases := names;
    }
    selectedDb := SelectedDatabase(req, session.stored.value);
    session.PersistSelectedDatabase(selectedDb);
  }

  /** The catalog after the request: only save and delete change it; save adds
      the trimmed name with the submitted `sql` under the fresh id, delete removes
      a truthy id that is present. */
  predicate CatalogEffect(st0: Store, req: Request, env: Environment, sql: string, st1: Store) {
    WellFormed(st0) && WellFormed(st1) &&
    (!IsAction(req, "save") && !IsAction(req, "delete") ==> st1 == st0) &&
    (IsAction(req, "save") ==>
      env.freshId !in st0.entries &&
      var name := Trim(PostField(req, "name"));
      st1 == (if name == "" then st0
        else Insert(st0, SavedQuery(env.freshId, name, sql, env.savedAt)))) &&
    (IsAction(req, "delete") ==>
      st1 == (if Find(st0, PostField(req, "id")).Some? then Remove(st0, PostField(req, "id")) else st0))
  }

  /** The run action shows the page with the collected results, or with the
      connect or query error instead of any credentials error. */
  predicate RunEffect(stored0: Option<Credential>, req: Request, env: Environment, resp: Response) {
    IsAction(req, "run") ==>
      stored0.Some? && resp.Page? &&
      resp.queried == Some(TargetOf(req, stored0.value)) &&
      (env.script.ConnectFailed? ==>
        resp.results == None && resp.error == Some(ConnectErrorPrefix + env.script.message)) &&
      (env.script.Executed? && env.script.first.Failed? ==>
        resp.results == None && resp.error == Some(QueryErrorPrefix + env.script.first.message)) &&
      (env.script.Executed? && !env.script.first.Failed? ==>
        resp.results.Some? && CollectedUpToFailure(Replies(env.script), resp.results.value) &&
        resp.error == CheckError(stored0, env.now))
  }

  /** The export action downloads exactly when the first statement succeeds; the
      download carries the sanitised name, the separator, the connection used and
      the records of the first statement. On failure the page shows the error. */
  predicate ExportEffect(st0: Store, stored0: Option<Credential>, req: Request, env: Environment, resp: Response) {
    (resp.Download? ==> IsAction(req, "export") && env.script.Executed? && !env.script.first.Failed?) &&
    (IsAction(req, "export") ==>
      WellFormed(st0) && stored0.Some? &&
      (env.script.Executed? && !env.script.first.Failed? ==>
        resp.Download? &&
        resp.filename == Sanitize(RawFilename(
          FirstMatchName(Listing(st0), SubmittedSql(st0, req)), env.exportStamp)) &&
        resp.separator == Separator(PostValue(req, "sep")) &&
        resp.target == TargetOf(req, stored0.value) &&
        resp.records == CsvRecords(env.script.first)) &&
      (env.script.ConnectFailed? ==>
        resp.Page? && resp.results == None && resp.error == Some(ConnectErrorPrefix + env.script.message) &&
        resp.queried == Some(TargetOf(req, stored0.value))) &&
      (env.script.Executed? && env.script.first.Failed? ==>
        resp.Page? && resp.results == None && resp.error == Some(QueryErrorPrefix + env.script.first.message) &&
        resp.queried == Some(TargetOf(req, stored0.value))))
  }

  /** The page: the editor shows `EditorSql`, the messages are the dispatcher's
      and the listing's, and the databases are listed, the working database
      chosen and persisted only while the second credentials check passes. */
  predicate PageEffect(st0: Store, stored0: Option<Credential>, req: Request, env: Environment,
                       resp: Response, stored1: Option<Credential>) {
    resp.Page? ==>
      resp.currentSql == EditorSql(st0, req) &&
      resp.messages == ActionMessages(st0, req) +
        (if CredentialsValid(stored0, env.listNow) then ListingMessages(env.listing) else []) &&
      (CredentialsValid(stored0, env.listNow) ==>
        resp.databases == ListedNames(env.listing) &&
        resp.selectedDb == SelectedDatabase(req, stored0.value) &&
        stored1 == Some(WithDatabase(stored0.value, resp.selectedDb))) &&
      (!CredentialsValid(stored0, env.listNow) ==>
        stored1 == stored0 && resp.selectedDb == "" && resp.databases == [])
  }

  /** Outside run and export nothing is queried: the page shows no results and
      no connection, and its error is the one the credentials check of a save
      sets, or none (`$results` and `$error` keep their `null` of lines 98-99). */
  predicate NoQueryEffect(stored0: Option<Credential>, req: Request, env: Environment, resp: Response) {
    resp.Page? && !IsAction(req, "run") && !IsAction(req, "export") ==>
      resp.results == None && resp.queried == None &&
      resp.error == (if IsAction(req, "save") then CheckError(stored0, env.now) else None)
  }

  /** What a request that got past login and logout does, from the catalog
      `st0` and stored credential `stored0` it started with to the response and
      the catalog `st1` and credential `stored1` it leaves. */
  predicate RequestEffect(st0: Store, stored0: Option<Credential>, req: Request, env: Environment,
                          resp: Response, st1: Store, stored1: Option<Credential>) {
    CatalogEffect(st0, req, env, SubmittedSql(st0, req), st1) &&
    RunEffect(stored0, req, env, resp) &&
    ExportEffect(st0, stored0, req, env, resp) &&
    NoQueryEffect(stored0, req, env, resp) &&
    (resp.Download? ==> stored1 == stored0) &&
    (IsAction(req, "save") || IsAction(req, "delete") || IsAction(req, "load") ==> resp.Page?) &&
    PageEffect(st0, stored0, req, env, resp, stored1)
  }

  /** The whole request. */
  method HandleRequest(session: Session, catalog: Catalog, req: Request, env: Environment)
    returns (resp: Response)
    requires catalog.Valid() && env.freshId !in catalog.entries
    requires (IsAction(req, "run") || IsAction(req, "export")) ==> session.stored.Some?
    modifies session, catalog
    ensures catalog.Valid()
    // login and logout
    ensures IsAction(req, "logout") ==> resp == Redirect && session.stored == None
    ensures IsAction(req, "login") && !LoginRejected(PostField(req, "host"), PostField(req, "user"), PostField(req, "cred_label")) ==>
      resp == Redirect &&
      session.stored == Some(LoginCredential(PostField(req, "host"), PostField(req, "user"),
        PostField(req, "pass"), PostField(req, "database"), PostField(req, "cred_label"), env.now))
    ensures IsAction(req, "login") && LoginRejected(PostField(req, "host"), PostField(req, "user"), PostField(req, "cred_label")) ==>
      resp.Page? && resp.loginError == Some(LoginErrorMessage)
    ensures resp == Redirect ==> IsAction(req, "login") || IsAction(req, "logout")
    ensures resp.Page? ==> (resp.loginError.Some? <==> IsAction(req, "login"))
    // the dispatcher, the export download and the page
    ensures RequestEffect(old(catalog.View()), old(session.stored), req, env, resp,
      catalog.View(), session.stored)
  {
    var redirect, loginError := LoginLogout(session, req, env.now);
    if redirect {
      return Redirect;
    }
    resp := Serve(session, catalog, req, env, loginError);
  }

  /** Everything after login and logout: the sidebar shortcut, the dispatcher,
      and the page unless the export downloaded. */
  method Serve(session: Session, catalog: Catalog, req: Request, env: Environment, loginError: Option<string>)
    returns (resp: Response)
    requires catalog.Valid() && env.freshId !in catalog.entries
    requires (IsAction(req, "run") || IsAction(req, "export")) ==> session.stored.Some?
    modifies session, catalog
    ensures catalog.Valid()
    ensures resp != Redirect
    ensures resp.Page? ==> resp.loginError == loginError
    ensures RequestEffect(old(catalog.View()), old(session.stored), req, env, resp,
      catalog.View(), session.stored)
  {
    // GET ?load=: overwrites $_POST['sql'] and sets $currentSql; its message is
    // lost when $messages is reset just after.
    var loaded := SidebarLoad(catalog.View(), req);
    var postSql := if loaded.Some? then Some(loaded.value.sql) else PostValue(req, "sql");
    if IsAction(req, "run") || IsAction(req, "save") || IsAction(req, "export") {
      resp := ServeRunSaveExport(session, catalog, req, env, loginError, loaded, postSql);
    } else if IsAction(req, "delete") || IsAction(req, "load") {
      resp := ServeDeleteOrLoad(session, catalog, req, env, loginError, loaded, postSql);
    } else {
      resp := RenderPage(session, catalog.View(), req, env, loaded, Dispatched([], None, None, postSql, None), loginError);
    }
  }

  /** Serve for run, save and export. */
  method ServeRunSaveExport(session: Session, catalog: Catalog, req: Request, env: Environment,
                            loginError: Option<string>, loaded: Option<SavedQuery>, postSql: Option<string>)
    returns (resp: Response)
    requires catalog.Valid() && env.freshId !in catalog.entries
    requires IsAction(req, "run") || IsAction(req, "save") || IsAction(req, "export")
    requires (IsAction(req, "run") || IsAction(req, "export")) ==> session.stored.Some?
    requires loaded == SidebarLoad(catalog.View(), req)
    requires postSql == if loaded.Some? then Some(loaded.value.sql) else PostValue(req, "sql")
    modifies session, catalog
    ensures catalog.Valid()
    ensures resp != Redirect
    ensures resp.Page? ==> resp.loginError == loginError
    ensures RequestEffect(old(catalog.View()), old(session.stored), req, env, resp,
      catalog.View(), session.stored)
  {
    assert (if postSql.Some? then postSql.value else "") == SubmittedSql(catalog.View(), req);
    var download, out := RunSaveExport(session.stored, catalog, req, env, postSql);
    if download.Some? {
      return download.value;
    }
    resp := RenderPage(session, old(catalog.View()), req, env, loaded, out, loginError);
  }

  /** Serve for delete and load. */
  method ServeDeleteOrLoad(session: Session, catalog: Catalog, req: Request, env: Environment,
                           loginError: Option<string>, loaded: Option<SavedQuery>, postSql: Option<string>)
    returns (resp: Response)
    requires catalog.Valid()
    requires IsAction(req, "delete") || IsAction(req, "load")
    requires loaded == SidebarLoad(catalog.View(), req)
    requires postSql == if loaded.Some? then Some(loaded.value.sql) else PostValue(req, "sql")
    modifies session, catalog
    ensures catalog.Valid()
    ensures resp != Redirect
    ensures resp.Page? ==> resp.loginError == loginError
    ensures RequestEffect(old(catalog.View()), old(session.stored), req, env, resp,
      catalog.View(), session.stored)
  {
    var out := DeleteOrLoad(catalog, req, postSql);
    resp := RenderPage(session, old(catalog.View()), req, env, loaded, out, loginError);
  }

  /** The end of a request that does not redirect or download: the editor SQL,
      the listing and the persistence of the selected database, while valid.
      `st0` is the catalog the request started with. */
  method RenderPage(session: Session, ghost st0: Store, req: Request, env: Environment, loaded: Option<SavedQuery>,
                    out: Dispatched, loginError: Option<string>)
    returns (resp: Response)
    requires loaded == SidebarLoad(st0, req)
    requires out.messages == ActionMessages(st0, req)
    requires loaded.None? ==> out.postSql == (if IsAction(req, "load") && Find(st0, PostField(req, "id")).Some?
      then Some(Find(st0, PostField(req, "id")).value.sql) else PostValue(req, "sql"))
    modifies session
    ensures resp.Page? && resp.loginError == loginError && resp.error == out.error &&
      resp.results == out.results && resp.queried == out.queried
    ensures PageEffect(st0, old(session.stored), req, env, resp, session.stored)
  {
    var currentSql := if loaded.Some? then loaded.value.sql
      else if out.postSql.Some? then out.postSql.value else DefaultSql;

    var databases: seq<string> := [];
    var selectedDb := "";
    var messages := out.messages;
    // time() is read again by this second credentials_valid()
    if CredentialsValid(session.stored, env.listNow) {
      var listMessages;
      databases, selectedDb, listMessages := ListAndPersist(session, req, env.listing);
      messages := messages + listMessages;
    }
    resp := Page(loginError, messages, out.error, out.results, currentSql, databases, selectedDb, out.queried);
  }
}

# MySQL Query Tool — request handling, modelled in Dafny

`mysql_query_tool.php` is a single-page PHP tool. An operator logs in with
database credentials, which are kept in the PHP session for eight hours. The
operator can then run multi-statement SQL scripts, save, load and delete named
queries, and export the first result of a script as a CSV download. This project
models the part of the script that decides things. That is the request handler
in lines 17-284, on plain data:

- `Php` (`php.dfy`): the PHP built-ins the handler relies on. These are `trim`
  with its default character list, the truthiness behind `empty()` and
  `if ($id)` (both `''` and `"0"` are falsy), `??` on form arrays, and
  `(string)` of an integer.
- `Credentials` (`credentials.dfy`): the stored credential, `credentials_valid`
  with its 28 800-second window, the `Session` class with login, logout and
  persistence of the working database, and the `??` chain that picks the
  working database.
- `Execution` (`execution.dfy`): the run branch's `do … while (more_results() &&
  next_result())` loop. It turns the driver's per-statement replies into the
  `$results` list, or into an error.
- `SavedQueries` (`saved_queries.dfy`): the catalog `$savedQueries`. It is an
  insertion-ordered map, held in the `Catalog` class, which `save` and `delete`
  update in place. It comes with a value-level `Store` and the functions
  `Insert`, `Remove`, `Find` and `Listing` that specify those methods.
- `Export` (`export.dfy`): the CSV separator, the file-name base found by the
  first-match `foreach`, the raw file name, the `preg_replace` sanitiser, and the
  records written by the `fetch_assoc` loop.
- `Requests` (`requests.dfy`): one whole request, in the script's order. The
  order is: login, logout, the `?load=` sidebar shortcut, then the POST
  dispatcher (run, save, export, delete, load), then, if the credential is
  valid, the database listing and persistence of the selected database. The
  result is a redirect, a CSV download or the data of the page.

Inputs from outside are parameters:

- the clock, in seconds. `now` is the `time()` read by login and by the
  dispatcher's credentials check. `listNow` is the `time()` read again by the
  second `credentials_valid()` before the database listing (line 255), so a
  credential can expire between the two checks;
- the fresh id that `uniqid()` would return. It must not already be a catalog
  key;
- the `date()` texts;
- the driver's replies. `ScriptReply` covers the connection attempt followed
  by `multi_query`. `DatabaseListing` covers the `SHOW DATABASES` connection.

Behaviour of the code that the model keeps:

- A statement that fails after the first one ends the `do … while` loop at
  line 158. The entries collected so far are kept and shown, and no error is
  reported.
- The credentials check of the run/save/export branch (lines 113-115) only sets
  `$error`. `save` still stores the query. `run` and `export` still connect
  with whatever credential is stored, even an expired one.
- `save` always creates a new entry under a fresh id (lines 121-127).
- Validity uses `empty()`. A login whose trimmed host or user is `"0"` is
  accepted and stored, but it is never valid (`ValidAfterLogin`).
- A successful export ends the script with `exit` (line 222). The persistence
  of the selected database (lines 279-283) therefore does not run for that
  request.
- The message set by the `?load=` shortcut is thrown away when `$messages` is
  reset at line 97. Its SQL still replaces `$_POST['sql']`. So a POST run, save
  or export on such a URL uses the loaded SQL.
- Logout removes only the credential (line 59).

## Model

| member | source | states |
|---|---|---|
| Php.TrimLeft | mysql_query_tool.php:36-40 | the left trim is no longer than its input and does not start with a stripped character |
| Php.TrimRight | mysql_query_tool.php:36-40 | the right trim is no longer than its input and does not end with a stripped character |
| Php.TrimLeftDropsPrefix | mysql_query_tool.php:36-40 | what the left trim keeps is a suffix of the input, and everything it drops is one of ` \t\n\r\0\x0B` |
| Php.TrimRightDropsSuffix | mysql_query_tool.php:36-40 | what the right trim keeps is a prefix of the input, and everything it drops is a stripped character |
| Php.Trim | mysql_query_tool.php:112 | a non-empty trimmed string neither starts nor ends with a stripped character |
| Php.TrimEmptyIff | mysql_query_tool.php:41 | trim gives `''` exactly when every character of the input is stripped (both directions) |
| Php.TrimIdempotent | mysql_query_tool.php:187 | trimming twice equals trimming once |
| Php.PhpEmpty | mysql_query_tool.php:29 | `empty()` and `if ($id)` treat only `''` and `"0"` as false: `''` is falsy, a falsy string has at most one character, and a one-character string is falsy exactly when it is `0` |
| Php.Lookup | mysql_query_tool.php:142 | `$m[$k] ?? null` is present exactly when the key is present, and is then its value |
| Php.Field | mysql_query_tool.php:36-40 | `$m[$k] ?? ''` is the value when the key is present and `''` otherwise |
| Php.NatToString | mysql_query_tool.php:218 | a non-negative count is written as a non-empty string of decimal digits without leading zeros |
| Php.NatToStringRoundTrip | mysql_query_tool.php:218 | reading the digits back gives the number |
| Php.IntToString | mysql_query_tool.php:218 | `(string)$n` starts with `-` exactly when `$n` is negative, and is followed by the digits of its magnitude |
| Php.IntToStringRoundTrip | mysql_query_tool.php:218 | `(string)$n` is an optional minus sign followed by decimal digits, and reads back as `$n`, for negative and non-negative `$n` alike |
| Php.NatTextRoundTrip | mysql_query_tool.php:218 | the non-negative case of the round trip |
| Php.NegativeTextRoundTrip | mysql_query_tool.php:218 | the negative case of the round trip: the minus sign, then digits that read back as the magnitude |
| Credentials.CredentialsValid | mysql_query_tool.php:24-32 | a valid credential is stored and at most 28800 s old; a host or user of `''` or `"0"` is never valid; any other stored credential is valid while its age is within the window |
| Credentials.LoginRejected | mysql_query_tool.php:36-41 | the login is rejected exactly when the host, the user or the label consists only of characters `trim` strips (an empty field included) |
| Credentials.LoginCredential | mysql_query_tool.php:36-51 | a stored credential has the trimmed host, user, database and label, the untrimmed password, and `created = now` |
| Credentials.ValidAfterLogin | mysql_query_tool.php:21-32 | a credential just stored by login is valid iff its trimmed host and user are not `"0"` and at most 28800 s have passed |
| Credentials.ExpiryBoundary | mysql_query_tool.php:21-30 | valid exactly 28800 s after creation, invalid at 28801 s |
| Credentials.ValidityMonotone | mysql_query_tool.php:30 | a credential valid now was valid at every earlier instant |
| Credentials.ResolveDatabase | mysql_query_tool.php:279 | the POST `selected_db` wins when present, even when it is `''`; else the GET one; else the stored default |
| Credentials.WithDatabase | mysql_query_tool.php:281-283 | the stored database is replaced only by a non-empty choice, and no other field changes |
| Credentials.PersistedChoiceSticks | mysql_query_tool.php:280-283 | after persistence, a later request without overrides resolves to the same non-empty choice |
| Credentials.PersistIdempotent | mysql_query_tool.php:281-283 | persisting the same choice twice is the same as persisting it once |
| Credentials.PersistKeepsValidity | mysql_query_tool.php:281-283 | persisting a database never changes validity |
| Credentials.Session.Login | mysql_query_tool.php:35-56 | rejected iff the trimmed host, user or label is `''`: the session is unchanged and the login error is set; otherwise the new credential replaces any earlier one |
| Credentials.Session.Logout | mysql_query_tool.php:58-62 | the credential is removed, nothing is valid afterwards, and a second logout changes nothing |
| Credentials.Session.PersistSelectedDatabase | mysql_query_tool.php:281-283 | the stored credential becomes `WithDatabase` of the old one |
| Execution.EntryOf | mysql_query_tool.php:151-157 | a row set gives a `result` entry with all its rows; no row set gives an `info` entry with the affected count |
| Execution.RunScript | mysql_query_tool.php:143-161 | connect failure gives `Connect error: …` and first-statement failure gives `Query error: …`, both with no results; otherwise one entry per statement in server order up to the first later failure, and no error |
| Execution.SucceededPrefix | mysql_query_tool.php:158 | the length of the longest failure-free prefix of the replies |
| Execution.CollectedCount | mysql_query_tool.php:150-158 | the collected entries number exactly the statements before the first failure |
| Execution.CollectedIsUnique | mysql_query_tool.php:150-158 | the replies determine the collected list |
| Execution.AllSucceedAllCollected | mysql_query_tool.php:150-158 | without a failing statement, every statement yields an entry |
| SavedQueries.Listing | mysql_query_tool.php:186 | the entries in insertion order, one per key |
| SavedQueries.Insert | mysql_query_tool.php:121-127 | adds exactly one entry under the fresh id at the end of the order; every other entry is unchanged; well-formedness is kept |
| SavedQueries.Without | mysql_query_tool.php:234 | the order without the id; other keys are kept and none is duplicated |
| SavedQueries.WithoutConcat | mysql_query_tool.php:234 | taking a key out of two joined orders is taking it out of each |
| SavedQueries.WithoutKeepsOrder | mysql_query_tool.php:234 | in a duplicate-free order, taking out the key at position `k` leaves exactly the keys before `k` followed by the keys after it |
| SavedQueries.UnsetListing | mysql_query_tool.php:234 | unsetting the key at position `k` drops listing entry `k` and keeps the rest in order |
| SavedQueries.Remove | mysql_query_tool.php:234 | removes only the given id; a no-op for an unknown id; the listing loses exactly that entry and the other entries keep their order |
| SavedQueries.Find | mysql_query_tool.php:232 | found iff the id is truthy (not `''` or `"0"`) and present, and then it is that entry |
| SavedQueries.WithoutAppended | mysql_query_tool.php:234 | removing a key just appended gives back the old order |
| SavedQueries.RemoveUndoesInsert | mysql_query_tool.php:121-127 | deleting the id just saved restores the catalog |
| SavedQueries.FindAfterInsert | mysql_query_tool.php:240 | a query just saved is found under its id |
| SavedQueries.FindAfterRemove | mysql_query_tool.php:232-234 | after a delete the id is gone and every other id is found as before |
| SavedQueries.Catalog.Save | mysql_query_tool.php:116-131 | an empty trimmed name leaves the catalog unchanged with the prompt message; otherwise the catalog is `Insert` of the trimmed name and the untrimmed SQL, with the confirmation message |
| SavedQueries.Catalog.Delete | mysql_query_tool.php:230-237 | a truthy present id is removed with the confirmation message; otherwise nothing changes |
| Export.Separator | mysql_query_tool.php:169 | `;` exactly when the submitted value is `;`, otherwise `,` |
| Export.SqlMatches | mysql_query_tool.php:187 | a saved query matches the script when their trimmed texts are equal; identical texts always match |
| Export.FirstMatchName | mysql_query_tool.php:184-191 | the name of the first entry in insertion order whose trimmed SQL equals the trimmed script, otherwise `query` |
| Export.FilenameBase | mysql_query_tool.php:184-191 | the foreach-and-break returns `FirstMatchName` |
| Export.RawFilename | mysql_query_tool.php:193-194 | base, `_`, timestamp, `.csv`, in that order |
| Export.Sanitize | mysql_query_tool.php:196 | same length; every output char is in `[A-Za-z0-9._-]`; allowed chars unchanged; every other char becomes `_` |
| Export.SanitizeIdempotent | mysql_query_tool.php:196 | sanitising twice equals sanitising once |
| Export.SanitizeKeepsSafe | mysql_query_tool.php:196 | a string already inside the class is unchanged |
| Export.SanitizeConcat | mysql_query_tool.php:196 | sanitising distributes over concatenation |
| Export.SafeNameShape | mysql_query_tool.php:193-196 | the download name is the sanitised base, `_`, the sanitised timestamp (its colons become `_`) and `.csv` |
| Export.CellText | mysql_query_tool.php:212 | a NULL value is written as an empty field, a text value as itself |
| Export.CsvRecord | mysql_query_tool.php:212 | one field per value, in field order; NULL is an empty field |
| Export.CsvRecords | mysql_query_tool.php:204-219 | with a row set: a header of field names, then one record per row in server order; without: the record `info`, then one field that is integer text reading back as the affected-row count |
| Export.ExportRecords | mysql_query_tool.php:204-219 | the `fputcsv` calls collect exactly `CsvRecords` of the first statement |
| Requests.PostValue | mysql_query_tool.php:109 | `$_POST[$k] ?? null` is present exactly when the request is a POST whose body has the key, and is then its value; a GET request has an empty `$_POST` |
| Requests.PostField | mysql_query_tool.php:111-112 | `$_POST[$k] ?? ''` is the posted value when the key is in a POST body, and `''` otherwise |
| Requests.IsAction | mysql_query_tool.php:35 | the posted `action` is one given name: the request is a POST whose body has `action` with exactly that value |
| Requests.SidebarLoad | mysql_query_tool.php:70-76 | the `?load=` shortcut finds a query exactly when `load` is given, truthy and a catalog key, and then it is that entry |
| Requests.SubmittedSql | mysql_query_tool.php:70-111 | the SQL the dispatcher sees: the shortcut's SQL when it found one, else the posted `sql`, else `''` |
| Requests.SelectedDatabase | mysql_query_tool.php:279 | the POST `selected_db` when given (even `''`), else the GET one, else the stored default |
| Requests.EditorSql | mysql_query_tool.php:249-252 | the editor shows the shortcut's SQL, else the SQL a POST load found, else the posted SQL; without a shortcut or a found POST load, the posted `sql` if there is one and `SELECT 1;` otherwise |
| Requests.ActionMessages | mysql_query_tool.php:116-245 | at most one message; save always adds one; delete and load add one exactly when they find the id; other actions add none |
| Requests.ListedNames | mysql_query_tool.php:266-272 | the listed names when `SHOW DATABASES` answered, none otherwise |
| Requests.ListingMessages | mysql_query_tool.php:263-277 | a message exactly when the listing connection is refused, with both prefixes and the driver's message; a failing `SHOW DATABASES` is silent |
| Requests.CheckError | mysql_query_tool.php:113-115 | the credentials check leaves no error exactly when the credential is valid, and otherwise exactly the text of line 114 |
| Requests.TargetOf | mysql_query_tool.php:137-143 | run and export connect with the stored host, user and password and the resolved database |
| Requests.LoginLogout | mysql_query_tool.php:35-62 | a login is accepted with a redirect or rejected with the error and the script goes on; a logout clears and redirects |
| Requests.Run | mysql_query_tool.php:133-166 | the run branch: a failure replaces the credentials error, a success keeps it |
| Requests.ExportCsv | mysql_query_tool.php:167-229 | connect or first-statement failure gives the error; otherwise a download with the sanitised name, the separator and the records of the first statement |
| Requests.RunSaveExport | mysql_query_tool.php:110-229 | the credentials check only sets the error; save still stores and adds its message; run gives the results with the credentials check's error, or the connect or query error; export downloads exactly when the first statement succeeds, with the sanitised name, separator, connection and `CsvRecords`, and otherwise reports the error; run and export use the stored credential |
| Requests.DeleteOrLoad | mysql_query_tool.php:230-245 | delete removes a truthy present id; load never changes the catalog and replaces the posted SQL when found; the messages are `ActionMessages`; no error and no results |
| Requests.ListAndPersist | mysql_query_tool.php:254-284 | databases come from the listing; a connect failure adds a message; the selected database is resolved and persisted when not `''` |
| Requests.RenderPage | mysql_query_tool.php:249-284 | the page carries the dispatcher's error, results and connection; the editor shows `EditorSql`; the messages are the dispatcher's then the listing's; databases, working database and persistence only while the second check passes at `listNow`, nothing listed or persisted otherwise |
| Requests.Serve | mysql_query_tool.php:69-284 | after login and logout: never a redirect, the login error passed through, and `RequestEffect`: the catalog, run, export and page effects, no results, connection or error beyond the save's credentials error outside run and export, and no persistence after a download |
| Requests.ServeRunSaveExport | mysql_query_tool.php:107-284 | `RequestEffect` for run, save and export; the page is skipped only by a download |
| Requests.ServeDeleteOrLoad | mysql_query_tool.php:230-284 | `RequestEffect` for delete and load, which always show the page with no error and no results |
| Requests.HandleRequest | mysql_query_tool.php:35-284 | a whole request: the redirects, a login error on the page exactly for a rejected login, `RequestEffect` (which actions change the catalog, run results and errors with the exact credentials text, no results or error outside run, export and an invalid save), the export download with its records and target or its error, the editor SQL (`SELECT 1;` by default), the messages and databases, and persistence only while valid at `listNow` and never after a download |

## Left out

- HTML, CSS, JavaScript and the Ace editor (lines 286-523), with their
  `htmlspecialchars`/`urlencode` escaping, are user interface. `$sep` at line
  102 only preselects the separator box, so it is left out too.
- The `mysqli` calls are driver calls. Their answers are the inputs
  `ScriptReply` and `DatabaseListing`. The driver's own behaviour is not
  modelled: connecting, what `multi_query` sends, and closing the connection.
- Reading and writing `saved_queries.json` (lines 15, 64-67, 72-73, 83-95, 128,
  235) is file I/O with JSON. The catalog is in-memory state that persists
  between requests. The `?load=` shortcut reads the file again at lines 72-73;
  the model reads the same in-memory catalog.
- `session_start`, `header()`, `exit`, output buffering and `php://output` are
  transport. A redirect and a download are values of `Response`.
- Byte-level CSV quoting and line endings inside `fputcsv` belong to a library.
  Records are sequences of field strings.
- `time()`, `date()` and `uniqid()` are parameters. The uniqueness of
  `uniqid()` is a precondition: the fresh id is not already a key.
- Requests.HandleRequest: run and export require a stored credential. Without
  one, PHP would hand null parameters to `mysqli`, and that is driver
  behaviour.
- Execution.RunScript: `fetch_all(MYSQLI_ASSOC)` keys each row by field name,
  so two columns with the same name collapse into one. Rows are modelled
  positionally, with every column kept.
- Export.ExportRecords: `fetch_assoc` collapses duplicate column names in the
  same way. The model writes every column.
- Export.Sanitize: PHP strings are bytes, so a multi-byte character becomes
  one `_` per byte. The model works on characters and writes one `_` per
  character.
- Credentials.CredentialsValid: the `is_array` and `isset($c['created'])`
  tests always hold, because only login writes the credential, and it always
  writes an array with a `created` stamp.
- The error texts `Connect error: …` and `Query error: …` and the silent end
  of the loop after a later failing statement assume mysqli's silent error
  reporting (`MYSQLI_REPORT_OFF`). Under PHP 8.1 and later the default mode
  throws `mysqli_sql_exception`; it is caught at line 163, 226 or 274 with the
  driver's raw message and no prefix, and a later failing statement then sets
  `$error` while `$results` keeps the entries collected so far. That mode is
  not modelled.
- Execution.EntryOf: a `result` entry also carries the column names. They
  stand for the keys of the rows that `fetch_all(MYSQLI_ASSOC)` returns, since
  the rows themselves are positional in the model.
- Concurrent requests from several tabs, and the last-write-wins races that
  follow, are not modelled. Each request runs alone.

/** The credential held in the PHP session under the key 'db_credentials':
    login, logout, the validity test with its eight-hour expiry, and the choice
    and persistence of the working database. The clock is a parameter `now`
    (seconds, as `time()` returns them). */
module Credentials {
  import opened Php

  /** `$sessionExpirySeconds`. */
  const SessionExpirySeconds: int := 60 * 60 * 8

  const LoginErrorMessage: string := "Please provide host, user and a label for these credentials."

  /** The array stored by a successful login. */
  datatype Credential = Credential(
    host: string,
    user: string,
    pass: string,
    database: string,
    credLabel: string,
    created: int)

  /** `credentials_valid()`: a credential is stored, its host and user are not
      PHP-empty, and no more than the expiry window has passed since it was created.
      (`created` is always set, since only a login writes the credential.) */
  predicate CredentialsValid(stored: Option<Credential>, now: int): (ok: bool)
    ensures ok ==> stored.Some? && now <= stored.value.created + SessionExpirySeconds
    ensures stored.Some? && (stored.value.host in {"", "0"} || stored.value.user in {"", "0"}) ==> !ok
    ensures (stored.Some? && stored.value.host !in {"", "0"} && stored.value.user !in {"", "0"} &&
             now <= stored.value.created + SessionExpirySeconds) ==> ok
  {
    stored.Some? &&
    !PhpEmpty(stored.value.host) && !PhpEmpty(stored.value.user) &&
    now - stored.value.created <= SessionExpirySeconds
  }

  /** The login form is rejected when the trimmed host, user or label is '',
      that is, when one of them consists of trimmed characters only. */
  predicate LoginRejected(host: string, user: string, credLabel: string): (rejected: bool)
    ensures rejected <==> OnlyTrimmed(host) || OnlyTrimmed(user) || OnlyTrimmed(credLabel)
  {
    TrimEmptyIff(host);
    TrimEmptyIff(user);
    TrimEmptyIff(credLabel);
    Trim(host) == "" || Trim(user) == "" || Trim(credLabel) == ""
  }

  /** What a successful login stores: every field trimmed except the password. */
  function LoginCredential(host: string, user: string, pass: string, database: string, credLabel: string, now: int): (c: Credential)
    ensures c.pass == pass && c.created == now
    ensures c.host == Trim(host) && c.user == Trim(user)
    ensures c.database == Trim(database) && c.credLabel == Trim(credLabel)
  {
    Credential(Trim(host), Trim(user), pass, Trim(database), Trim(credLabel), now)
  }

  /** A credential just stored by a login is valid for exactly the expiry window,
      unless its trimmed host or user is the string "0", which `empty()` rejects
      although the login form accepted it. */
  lemma ValidAfterLogin(host: string, user: string, pass: string, database: string, credLabel: string, t: int, now: int)
    requires !LoginRejected(host, user, credLabel)
    ensures CredentialsValid(Some(LoginCredential(host, user, pass, database, credLabel, t)), now)
        <==> Trim(host) != "0" && Trim(user) != "0" && now <= t + SessionExpirySeconds
  {
  }

  /** Expiry boundary: still valid exactly 28800 seconds after creation, invalid one second later. */
  lemma ExpiryBoundary(c: Credential)
    requires !PhpEmpty(c.host) && !PhpEmpty(c.user)
    ensures CredentialsValid(Some(c), c.created + 28800)
    ensures !CredentialsValid(Some(c), c.created + 28801)
  {
  }

  /** Validity is never regained by waiting: valid now means valid at every earlier instant. */
  lemma ValidityMonotone(stored: Option<Credential>, earlier: int, now: int)
    requires earlier <= now && CredentialsValid(stored, now)
    ensures CredentialsValid(stored, earlier)
  {
  }

  /** The `??` chain for the working database: the POST `selected_db` if present
      (even when it is ''), else the GET one, else the stored default. */
  function ResolveDatabase(post: Option<string>, get: Option<string>, stored: string): (db: string)
    ensures post.Some? ==> db == post.value
    ensures post.None? && get.Some? ==> db == get.value
    ensures post.None? && get.None? ==> db == stored
  {
    if post.Some? then post.value else if get.Some? then get.value else stored
  }

  /** The persistence step: the chosen database replaces the stored default only
      when it is not ''; every other field is kept. */
  function WithDatabase(c: Credential, selected: string): (r: Credential)
    ensures selected != "" ==> r.database == selected
    ensures selected == "" ==> r == c
    ensures r.(database := c.database) == c
  {
    if selected != "" then c.(database := selected) else c
  }

  /** Once persisted, a non-empty choice is what a later request without any
      override resolves to: "other POST actions keep it". */
  lemma PersistedChoiceSticks(c: Credential, post: Option<string>, get: Option<string>)
    ensures var sel := ResolveDatabase(post, get, c.database);
      sel != "" ==> ResolveDatabase(None, None, WithDatabase(c, sel).database) == sel
  {
  }

  /** Persisting the same choice twice is the same as persisting it once. */
  lemma PersistIdempotent(c: Credential, selected: string)
    ensures WithDatabase(WithDatabase(c, selected), selected) == WithDatabase(c, selected)
  {
  }

  /** Persisting a database never changes validity: host, user and stamp are kept. */
  lemma PersistKeepsValidity(c: Credential, selected: string, now: int)
    ensures CredentialsValid(Some(WithDatabase(c, selected)), now) == CredentialsValid(Some(c), now)
  {
  }

  /** `$_SESSION`, reduced to the one key this tool uses. */
  class Session {
    var stored: Option<Credential>

    constructor ()
      ensures stored == None
    {
      stored := None;
    }

    /** The login branch: on rejection the session is untouched and the error is
        returned; otherwise the new credential replaces any earlier one. */
    method Login(host: string, user: string, pass: string, database: string, credLabel: string, now: int)
      returns (loginError: Option<string>)
      modifies this
      ensures loginError.Some? <==> LoginRejected(host, user, credLabel)
      ensures loginError.Some? ==> loginError.value == LoginErrorMessage && stored == old(stored)
      ensures loginError.None? ==> stored == Some(LoginCredential(host, user, pass, database, credLabel, now))
    {
      var h := Trim(host);
      var u := Trim(user);
      var d := Trim(database);
      var l := Trim(credLabel);
      if h == "" || u == "" || l == "" {
        loginError := Some(LoginErrorMessage);
      } else {
        stored := Some(Credential(h, u, pass, d, l, now));
        loginError := None;
      }
    }

    /** The logout branch: `unset($_SESSION[$sessionKey])`. */
    method Logout()
      modifies this
      ensures stored == None
      ensures forall now :: !CredentialsValid(stored, now)
    {
      stored := None;
    }

    /** `$_SESSION[$sessionKey]['database'] = $selectedDb` when it is not ''. */
    method PersistSelectedDatabase(selected: string)
      requires stored.Some?
      modifies this
      ensures stored == Some(WithDatabase(old(stored).value, selected))
    {
      if selected != "" {
        stored := Some(stored.value.(database := selected));
      }
    }
  }
}

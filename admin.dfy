/**
 * The admin area: /login sets the session's `is_admin` flag when the posted
 * password equals ADMIN_PASSWORD, /admin is shown only while the flag is
 * set, and /logout removes it. The environment value and the posted form
 * are inputs; the session cookie is the object below.
 */
module Admin {
  import opened Wrappers

  /**
   * `os.environ.get("ADMIN_PASSWORD") and pwd == os.environ.get("ADMIN_PASSWORD")`,
   * with `pwd = request.form.get("password", "")`: an unset or empty
   * password admits nobody, and neither side is stripped.
   */
  predicate LoginAccepted(configured: Option<string>, password: Option<string>) {
    match configured
    case None => false
    case Some(p) => p != "" && OrEmpty(password) == p
  }

  /** No login succeeds while ADMIN_PASSWORD is unset or empty. */
  lemma NoPasswordConfigured(configured: Option<string>, password: Option<string>)
    requires configured.None? || configured.value == ""
    ensures !LoginAccepted(configured, password)
  {
  }

  /** A form without a password field is read as "", which never equals a configured password. */
  lemma MissingPasswordRefused(configured: Option<string>)
    ensures !LoginAccepted(configured, None)
  {
  }

  /** Exactly the configured password, character for character, is accepted. */
  lemma AcceptedExactly(configured: Option<string>, password: Option<string>)
    ensures LoginAccepted(configured, password) <==>
            configured.Some? && configured.value != "" && password == Some(configured.value)
  {
  }

  /** The requests that touch the flag. */
  datatype Event = LoginAttempt(password: Option<string>) | Logout

  /** The flag after one request: a refused login leaves it as it was. */
  function Step(flag: bool, event: Event, configured: Option<string>): bool {
    match event
    case LoginAttempt(password) => flag || LoginAccepted(configured, password)
    case Logout => false
  }

  /** The flag after a run of requests, starting from `flag`. */
  function FlagAfter(flag: bool, events: seq<Event>, configured: Option<string>): bool
    decreases |events|
  {
    if events == [] then flag
    else FlagAfter(Step(flag, events[0], configured), events[1..], configured)
  }

  /** Position k holds a successful login. */
  predicate SucceedsAt(events: seq<Event>, k: int, configured: Option<string>)
    requires 0 <= k < |events|
  {
    events[k].LoginAttempt? && LoginAccepted(configured, events[k].password)
  }

  /** No logout happens after position k. */
  predicate NoLogoutAfter(events: seq<Event>, k: int)
    requires 0 <= k < |events|
  {
    forall m :: k < m < |events| ==> !events[m].Logout?
  }

  /** Some login succeeded and no logout followed it. */
  predicate LoggedInLast(events: seq<Event>, configured: Option<string>) {
    exists k :: 0 <= k < |events| && SucceedsAt(events, k, configured) && NoLogoutAfter(events, k)
  }

  /** The run holds no logout at all. */
  predicate NoLogout(events: seq<Event>) {
    forall m :: 0 <= m < |events| ==> !events[m].Logout?
  }

  /**
   * The admin page is open at the end of a fresh session exactly when some
   * login succeeded and no logout came after it.
   */
  lemma FlagAfterIff(events: seq<Event>, configured: Option<string>)
    ensures FlagAfter(false, events, configured) <==> LoggedInLast(events, configured)
  {
    FlagAfterFrom(false, events, configured);
  }

  /** The general form: a flag set at the start survives a run without logouts. */
  lemma {:induction false} FlagAfterFrom(flag: bool, events: seq<Event>, configured: Option<string>)
    ensures FlagAfter(flag, events, configured) <==> (flag && NoLogout(events)) || LoggedInLast(events, configured)
    decreases |events|
  {
    if events != [] {
      FlagAfterFrom(Step(flag, events[0], configured), events[1..], configured);
      SplitFirst(events, configured);
    }
  }

  /** How the two properties of a run follow from its first request and the rest. */
  lemma SplitFirst(events: seq<Event>, configured: Option<string>)
    requires events != []
    ensures NoLogout(events) <==> !events[0].Logout? && NoLogout(events[1..])
    ensures LoggedInLast(events, configured) <==>
            (SucceedsAt(events, 0, configured) && NoLogout(events[1..])) || LoggedInLast(events[1..], configured)
  {
    var rest := events[1..];
    if LoggedInLast(rest, configured) {
      var k :| 0 <= k < |rest| && SucceedsAt(rest, k, configured) && NoLogoutAfter(rest, k);
      assert rest[k] == events[k + 1];
      forall m | k + 1 < m < |events| ensures !events[m].Logout? {
        assert rest[m - 1] == events[m];
      }
      assert SucceedsAt(events, k + 1, configured) && NoLogoutAfter(events, k + 1);
    }
    if SucceedsAt(events, 0, configured) && NoLogout(rest) {
      forall m | 0 < m < |events| ensures !events[m].Logout? {
        assert rest[m - 1] == events[m];
      }
      assert NoLogoutAfter(events, 0);
    }
    if LoggedInLast(events, configured) {
      var k :| 0 <= k < |events| && SucceedsAt(events, k, configured) && NoLogoutAfter(events, k);
      if k == 0 {
        forall m | 0 <= m < |rest| ensures !rest[m].Logout? {
          assert rest[m] == events[m + 1];
        }
      } else {
        forall m | k - 1 < m < |rest| ensures !rest[m].Logout? {
          assert rest[m] == events[m + 1];
        }
        assert SucceedsAt(rest, k - 1, configured) && NoLogoutAfter(rest, k - 1);
      }
    }
    if !events[0].Logout? && NoLogout(rest) {
      forall m | 0 <= m < |events| ensures !events[m].Logout? {
        if m > 0 { assert rest[m - 1] == events[m]; }
      }
    }
    if NoLogout(events) {
      forall m | 0 <= m < |rest| ensures !rest[m].Logout? {
        assert rest[m] == events[m + 1];
      }
    }
  }

  /** The part of the Flask session this area reads and writes. */
  class AdminSession {
    var isAdmin: bool

    /** A new session has no `is_admin` entry. */
    constructor ()
      ensures !isAdmin
    {
      isAdmin := false;
    }

    /** POST /login: sets the flag on the right password; otherwise shows "Contraseña incorrecta." and changes nothing. */
    method Login(password: Option<string>, configured: Option<string>) returns (granted: bool)
      modifies this
      ensures granted <==> LoginAccepted(configured, password)
      ensures isAdmin == Step(old(isAdmin), LoginAttempt(password), configured)
      ensures isAdmin == (old(isAdmin) || granted)
    {
      var pwd := OrEmpty(password);
      granted := false;
      if configured.Some? && configured.value != "" && pwd == configured.value {
        isAdmin := true;
        granted := true;
      }
    }

    /** GET /admin: the panel when the flag is set, a redirect to the login form otherwise. */
    method Admin() returns (allowed: bool)
      ensures allowed <==> isAdmin
    {
      allowed := isAdmin;
    }

    /** GET /logout: `session.pop("is_admin", None)`, whether or not it was set. */
    method Logout()
      modifies this
      ensures !isAdmin
    {
      isAdmin := false;
    }
  }
}

/** The authentication gate of lock-user-account.php: one check per
    entry point (standard login, REST, XML-RPC, application passwords),
    the forced logout on every request, the login-page message and the two
    password-reset hooks. Each check passes its input through unchanged
    unless the user it concerns is locked. */
module LockUserAccount {
  import opened LockFlag

  /** A `WP_Error`: its code, its message and the optional `status` of its data. */
  datatype WpError = WpError(code: string, message: string, status: Option<int>)

  /** A PHP value handed to a filter where a user or an error is expected. */
  datatype Candidate =
    | UserObject(id: int)          // a WP_User
    | OtherObject(maybeId: Option<int>) // another object, with or without an `ID` property
    | Error(error: WpError)        // a WP_Error
    | Scalar(isEmpty: bool)        // null, true, false, ...: PHP's empty() of it

  const LoginDefaultMessage: string := "Your account is locked!"
  const PathwayLockedMessage: string := "Your account is locked."
  const ResetDefaultMessage: string := "Your account is locked and cannot reset password."
  const ImpersonationPrefix: string := "wp_loginasuser_"

  /** `is_object($user) && isset($user->ID)`: the id check_lock looks up. */
  function ObjectId(c: Candidate): (r: Option<int>)
    ensures r.Some? <==> c.UserObject? || (c.OtherObject? && c.maybeId.Some?)
    ensures c.UserObject? ==> r == Some(c.id)
    ensures c.OtherObject? ==> r == c.maybeId
  {
    match c
    case UserObject(id) => Some(id)
    case OtherObject(maybeId) => maybeId
    case _ => None
  }

  /** PHP's `empty()` of a value: objects never are. */
  predicate Empty(c: Candidate)
  {
    c.Scalar? && c.isEmpty
  }

  /** The error check_lock returns for a locked user. */
  function LoginLockedError(config: Option<string>): WpError
  {
    WpError("locked", LockMessage(config, LoginDefaultMessage), None)
  }

  /** Filter `wp_authenticate_user`. */
  function CheckLock(user: Candidate, meta: MetaMap, config: Option<string>): (r: Candidate)
    ensures user.Error? ==> r == user
    ensures r != user <==> !user.Error? && ObjectId(user).Some? && IsLocked(meta, ObjectId(user).value)
    ensures r != user ==> r == Error(WpError("locked", LockMessage(config, LoginDefaultMessage), None))
  {
    if user.Error? then user
    else if ObjectId(user).Some? && IsLocked(meta, ObjectId(user).value) then Error(LoginLockedError(config))
    else user
  }

  /** Filter `rest_authentication_errors`; `currentUserId` is
      `get_current_user_id()`, 0 when nobody is authenticated. */
  function RestApiLockCheck(result: Candidate, currentUserId: int, meta: MetaMap): (r: Candidate)
    ensures !Empty(result) ==> r == result
    ensures currentUserId == 0 ==> r == result
    ensures r != result <==> Empty(result) && currentUserId != 0 && IsLocked(meta, currentUserId)
    ensures r != result ==> r == Error(WpError("rest_locked", PathwayLockedMessage, Some(403)))
  {
    if !Empty(result) then result
    else if currentUserId == 0 then result
    else if IsLocked(meta, currentUserId) then
      Error(WpError("rest_locked", PathwayLockedMessage, Some(403)))
    else result
  }

  /** `$user && is_a($user, 'WP_User')` followed by the meta lookup, shared
      by the XML-RPC and application-password checks. */
  predicate LockedWpUser(user: Candidate, meta: MetaMap)
  {
    user.UserObject? && IsLocked(meta, user.id)
  }

  /** Filter `xmlrpc_login_error`; the password argument is unused. */
  function XmlrpcLockCheck(error: Candidate, user: Candidate, meta: MetaMap): (r: Candidate)
    ensures error.Error? ==> r == error
    ensures r != error <==> !error.Error? && LockedWpUser(user, meta)
    ensures r != error ==> r == Error(WpError("xmlrpc_locked", PathwayLockedMessage, None))
  {
    if error.Error? then error
    else if LockedWpUser(user, meta) then Error(WpError("xmlrpc_locked", PathwayLockedMessage, None))
    else error
  }

  /** Filter `wp_authenticate_application_password`; the password, login
      and user-record arguments are unused. */
  function ApplicationPasswordLockCheck(user: Candidate, meta: MetaMap): (r: Candidate)
    ensures user.Error? ==> r == user
    ensures r != user <==> !user.Error? && LockedWpUser(user, meta)
    ensures r != user ==> r == Error(WpError("app_pass_locked", PathwayLockedMessage, None))
  {
    if user.Error? then user
    else if LockedWpUser(user, meta) then Error(WpError("app_pass_locked", PathwayLockedMessage, None))
    else user
  }

  /** Every pathway turns away a locked WP_User that no earlier filter has
      rejected, and lets an unlocked one through. */
  lemma EveryPathwayDeniesExactlyLockedUsers(id: int, meta: MetaMap, config: Option<string>, noError: Candidate)
    requires Empty(noError)
    ensures CheckLock(UserObject(id), meta, config).Error? <==> IsLocked(meta, id)
    ensures XmlrpcLockCheck(noError, UserObject(id), meta).Error? <==> IsLocked(meta, id)
    ensures ApplicationPasswordLockCheck(UserObject(id), meta).Error? <==> IsLocked(meta, id)
    ensures id != 0 ==> (RestApiLockCheck(noError, id, meta).Error? <==> IsLocked(meta, id))
  {
  }

  /** `strpos($name, 'wp_loginasuser_') === 0`. */
  predicate StartsWith(s: string, prefix: string)
  {
    prefix <= s
  }

  /** Some cookie of the request marks an admin impersonating a user. */
  predicate Impersonating(cookieNames: seq<string>)
  {
    exists i :: 0 <= i < |cookieNames| && StartsWith(cookieNames[i], ImpersonationPrefix)
  }

  /** Where a redirect lands. `home_url(...)` is a page of the site's front
      end; `wp_login_url()` is wp-login.php, the only page that runs the
      `login_message` filter. */
  datatype Page = FrontPage | LoginPage

  /** What the `init` action does to the request. */
  datatype InitOutcome =
    | Continue    // the request goes on
    | LogoutAndRedirect(page: Page, accountLocked: string)
                  // wp_logout(), wp_redirect to `page` with query `account_locked`, exit

  /** The redirect of the forced logout: `home_url('/?account_locked=1')`. */
  const LockedRedirect: InitOutcome := LogoutAndRedirect(FrontPage, "1")

  /** The redirect the `login_message` filter is written for: the login page
      with `account_locked=1`. */
  const LoginPageLockedRedirect: InitOutcome := LogoutAndRedirect(LoginPage, "1")

  /** Action `init`: force the logout of a locked user who is already logged
      in, unless the session is an impersonation session. `loggedIn` is
      `is_user_logged_in()` and `currentUserId` is `get_current_user_id()`. */
  method LogoutLockedUser(cookieNames: seq<string>, loggedIn: bool, currentUserId: int, meta: MetaMap)
    returns (outcome: InitOutcome)
    ensures Impersonating(cookieNames) ==> outcome == Continue
    ensures outcome.LogoutAndRedirect? <==> !Impersonating(cookieNames) && loggedIn && IsLocked(meta, currentUserId)
    ensures outcome.LogoutAndRedirect? ==> outcome == LockedRedirect
  {
    var i := 0;
    while i < |cookieNames|
      invariant 0 <= i <= |cookieNames|
      invariant forall j :: 0 <= j < i ==> !StartsWith(cookieNames[j], ImpersonationPrefix)
    {
      if ImpersonationPrefix <= cookieNames[i] {
        return Continue;
      }
      i := i + 1;
    }
    if loggedIn {
      var isLocked := GetUserMeta(meta, currentUserId);
      if isLocked == LockedValue {
        return LockedRedirect;
      }
    }
    return Continue;
  }

  /** The markup appended to the login message. */
  function ErrorBox(text: string): (r: string)
  {
    "<div class=\"error\"><strong>" + text + "</strong></div>"
  }

  /** Filter `login_message`. `accountLocked` is `$_GET['account_locked']`
      and `equalsOne` is PHP's loose comparison `$value == 1`. */
  function LockedAccountLoginMessage(message: string, accountLocked: Option<string>,
                                     equalsOne: string -> bool, config: Option<string>): (r: string)
    ensures message <= r
    ensures r != message <==> accountLocked.Some? && equalsOne(accountLocked.value)
    ensures r != message ==> r[|message|..] == ErrorBox(LockMessage(config, PathwayLockedMessage))
  {
    if accountLocked.Some? && equalsOne(accountLocked.value) then
      message + ErrorBox(LockMessage(config, PathwayLockedMessage))
    else message
  }

  /** The login message shown on the page a logout redirect lands on:
      `None` when that page is not the login page (no `login_message`
      filter runs there); on the login page, `message` passed through the
      filter with `account_locked` read from the redirect's query. */
  function LandingLoginMessage(redirect: InitOutcome, message: string, equalsOne: string -> bool,
                               config: Option<string>): Option<string>
    requires redirect.LogoutAndRedirect?
  {
    if redirect.page == LoginPage then
      Some(LockedAccountLoginMessage(message, Some(redirect.accountLocked), equalsOne, config))
    else None
  }

  /** As written, the forced logout lands on the front page, so the lock
      message the `login_message` filter would add is never shown after it. */
  lemma ForcedLogoutShowsNoLockMessage(message: string, equalsOne: string -> bool, config: Option<string>)
    ensures LockedRedirect.page != LoginPage
    ensures LandingLoginMessage(LockedRedirect, message, equalsOne, config) == None
  {
  }

  /** The forced logout redirecting to the login page instead: the same
      decision as `LogoutLockedUser`, with `LoginPageLockedRedirect` as the
      target. */
  method LogoutLockedUserToLoginPage(cookieNames: seq<string>, loggedIn: bool, currentUserId: int, meta: MetaMap)
    returns (outcome: InitOutcome)
    ensures Impersonating(cookieNames) ==> outcome == Continue
    ensures outcome.LogoutAndRedirect? <==> !Impersonating(cookieNames) && loggedIn && IsLocked(meta, currentUserId)
    ensures outcome.LogoutAndRedirect? ==> outcome == LoginPageLockedRedirect
  {
    var asWritten := LogoutLockedUser(cookieNames, loggedIn, currentUserId, meta);
    if asWritten.LogoutAndRedirect? {
      outcome := LoginPageLockedRedirect;
    } else {
      outcome := Continue;
    }
  }

  /** With the corrected redirect, the login page the logged-out user lands
      on shows the original message followed by the configured (or default)
      lock message. */
  lemma CorrectedLogoutShowsLockMessage(message: string, equalsOne: string -> bool, config: Option<string>)
    requires equalsOne("1")
    ensures LandingLoginMessage(LoginPageLockedRedirect, message, equalsOne, config)
            == Some(message + ErrorBox(LockMessage(config, PathwayLockedMessage)))
  {
  }

  /** What the `allow_password_reset` filter carries: a boolean or a WP_Error. */
  datatype ResetPermission = Permit(allowed: bool) | Refuse(error: WpError)

  /** Filter `allow_password_reset`. */
  function DisallowLockedUserPasswordReset(allow: ResetPermission, userId: int, meta: MetaMap): (r: ResetPermission)
    ensures IsLocked(meta, userId) ==> r == Permit(false)
    ensures !IsLocked(meta, userId) ==> r == allow
  {
    if IsLocked(meta, userId) then Permit(false) else allow
  }

  /** The reset veto refuses exactly the users the login gate refuses. */
  lemma ResetVetoAgreesWithLoginGate(id: int, meta: MetaMap, config: Option<string>)
    ensures DisallowLockedUserPasswordReset(Permit(true), id, meta) == Permit(false)
            <==> CheckLock(UserObject(id), meta, config).Error?
  {
  }

  /** The error collection of a `WP_Error`, changed in place by `add`:
      error code to its messages in the order they were added. */
  class WpErrorBag {
    var errors: map<string, seq<string>>

    constructor (initial: map<string, seq<string>>)
      ensures errors == initial
    {
      errors := initial;
    }

    /** `$errors->add($code, $message)`: appends one message under `code`. */
    method Add(code: string, message: string)
      modifies this
      ensures errors == old(errors)[code := MessagesOf(old(errors), code) + [message]]
    {
      errors := errors[code := MessagesOf(errors, code) + [message]];
    }
  }

  function MessagesOf(errors: map<string, seq<string>>, code: string): (r: seq<string>)
    ensures code !in errors ==> r == []
  {
    if code in errors then errors[code] else []
  }

  /** Action `validate_password_reset`: a locked WP_User gets one `locked`
      error on the reset form; otherwise the collection is left as it was. */
  method ShowLockedUserResetError(errors: WpErrorBag, user: Candidate, meta: MetaMap, config: Option<string>)
    modifies errors
    ensures LockedWpUser(user, meta) ==>
      errors.errors == old(errors.errors)["locked" := MessagesOf(old(errors.errors), "locked")
                                                      + [LockMessage(config, ResetDefaultMessage)]]
    ensures !LockedWpUser(user, meta) ==> errors.errors == old(errors.errors)
  {
    if user.UserObject? && LockedValue == GetUserMeta(meta, user.id) {
      var errorMessage := LockMessage(config, ResetDefaultMessage);
      errors.Add("locked", errorMessage);
    }
  }
}

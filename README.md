# Lock User Account — a Dafny model

The WordPress plugin "Lock User Account" keeps one flag per user, the
user-meta key `baba_user_locked`, stored as `"yes"`, `""` or absent. Two
pieces of logic sit over that flag:

- the **authentication gate** (`lock-user-account.php`): the filters on the
  standard login, the REST API, XML-RPC and application passwords, each of
  which passes its input through unchanged unless the user is locked; the
  `init` action that logs a locked user out (unless a cookie marks an admin
  impersonation session); the lock message the login page adds when the
  query carries `account_locked=1`; and the two password-reset hooks;
- the **bulk admin action** (`includes/class-user-meta.php`): the "Lock" and
  "Unlock" entries of the users list, its "Locked" column, the request
  processor that validates the request and writes the flag of every selected
  user (never locking the caller), and the notice shown after its redirect.

Modules, one per source file plus a shared one:

- `LockFlag` (`lock_flag.dfy`): the meta store as a `map<int, string>`
  (`MetaMap`), `get_user_meta` and the `=== 'yes'` test, PHP truthiness of the
  configured message `baba_locked_message` (an `Option<string>`; `None` is an
  option never saved), and `UserMetaStore`, a class whose `Update` is
  `update_user_meta` changing the map in place.
- `LockUserAccount` (`lock_user_account.dfy`): the gate. A value a filter
  receives is a `Candidate`: a `WP_User`, another object (with or without an
  `ID`), a `WP_Error`, or a scalar together with PHP's `empty()` of it. The
  forced logout is a method with the source's loop over the cookie names and
  its early return; the reset-form hook changes a `WpErrorBag` (the error
  collection of a `WP_Error`) in place.
- `PhpInt` (`php_int.dfy`): `intval` on the submitted user ids.
- `UserMeta` (`user_meta.dfy`): the bulk action. `Process` states what one
  request does (its outcome and the meta map afterwards); the method
  `ProcessLockAction` runs the source's guards and `foreach` loops against a
  `UserMetaStore` and is proved to do exactly that.

Host primitives are inputs: `get_current_user_id()`, `is_user_logged_in()`,
`check_admin_referer('bulk-users')` and `current_user_can('edit_users')` are
parameters; `wp_die`, the redirects, `wp_logout` and `exit` are constructors
of outcome datatypes (`BulkOutcome`, `InitOutcome`). PHP's loose comparison
`$_GET['account_locked'] == 1` is the parameter `equalsOne`.

Facts about the code that the contracts make explicit:

- the processor has no check of the request method;
- the action is selected and checked before the nonce, so a request with no
  `lock`/`unlock` action is ignored whatever its nonce;
- a missing `_wpnonce` ends in `wp_die('Security check failed.')`; a present
  nonce that fails is stopped inside `check_admin_referer` itself, by
  WordPress's "The link you followed has expired." page (`NonceRejected`);
- an absent `action` field is PHP's null and selects nothing, even when
  `action2` is set, so such a request is ignored (includes/class-user-meta.php:67);
- the configured message counts as unset when it is `""` and also when it is
  `"0"`, since the code tests PHP truthiness;
- the forced logout redirects to the front page, where no login message is
  drawn (see "## Findings").

Behaviour worth knowing that the contracts make explicit: the forced logout
is skipped for any request carrying a cookie whose name starts with
`wp_loginasuser_`, whoever set it (`LogoutLockedUser`).

## Model

| member | source | states |
|---|---|---|
| `LockFlag.GetUserMeta` | lock-user-account.php:139-140 | the stored flag of a user, or `""` when the user has no row |
| `LockFlag.LockMessage` | lock-user-account.php:48-49 | the configured message when it is truthy in PHP's sense, the default otherwise |
| `LockFlag.UserMetaStore.Update` | includes/class-user-meta.php:93 | writing one user's flag changes that user's row and no other |
| `LockUserAccount.ObjectId` | lock-user-account.php:47 | an id is looked up exactly for a WP_User or another object that has an `ID`, and it is that object's `ID` |
| `LockUserAccount.CheckLock` | lock-user-account.php:43-53 | an error passes unchanged; the result differs from the input exactly when the object's user is locked, and then it is the `locked` error with the configured or default message |
| `LockUserAccount.RestApiLockCheck` | lock-user-account.php:61-76 | a non-empty result passes unchanged, so does any result when nobody is logged in; otherwise the `rest_locked` error with status 403 replaces it exactly when the current user is locked |
| `LockUserAccount.XmlrpcLockCheck` | lock-user-account.php:86-98 | an existing error passes unchanged; otherwise the `xmlrpc_locked` error replaces the first argument exactly when the user is a locked WP_User |
| `LockUserAccount.ApplicationPasswordLockCheck` | lock-user-account.php:109-121 | an existing error passes unchanged; otherwise the `app_pass_locked` error replaces the user exactly when it is a locked WP_User |
| `LockUserAccount.EveryPathwayDeniesExactlyLockedUsers` | lock-user-account.php:43-121 | all four entry points deny a WP_User that no earlier filter rejected if and only if that user is locked |
| `LockUserAccount.LogoutLockedUser` | lock-user-account.php:128-146 | any cookie named `wp_loginasuser_…` skips the check; otherwise the request is logged out and redirected to the front page with `account_locked=1` exactly when a locked user is logged in, and goes on in every other case |
| `LockUserAccount.LockedAccountLoginMessage` | lock-user-account.php:149-155 | the original message is always a prefix; something is appended exactly when `account_locked` is set and equals 1, and it is the error box holding the configured or default message |
| `LockUserAccount.ForcedLogoutShowsNoLockMessage` | lock-user-account.php:142-152 | the forced-logout redirect does not land on the login page, so no lock message is shown after it |
| `LockUserAccount.LogoutLockedUserToLoginPage` | lock-user-account.php:128-146 | the corrected forced logout: the same decision as `LogoutLockedUser`, redirecting to the login page with `account_locked=1` |
| `LockUserAccount.CorrectedLogoutShowsLockMessage` | lock-user-account.php:149-155 | after the corrected redirect, the login page shows the original message followed by the configured or default lock message |
| `LockUserAccount.DisallowLockedUserPasswordReset` | lock-user-account.php:159-164 | a locked user's reset is refused (false) whatever was allowed before; any other user's permission is returned unchanged |
| `LockUserAccount.ResetVetoAgreesWithLoginGate` | lock-user-account.php:159-164 | the reset veto refuses exactly the users the login filter turns away |
| `LockUserAccount.WpErrorBag.Add` | lock-user-account.php:171 | adding an error appends one message under its code and leaves other codes alone |
| `LockUserAccount.ShowLockedUserResetError` | lock-user-account.php:168-173 | a locked WP_User gets exactly one more `locked` message with the configured or default text; otherwise the collection is unchanged |
| `PhpInt.IntVal` | includes/class-user-meta.php:85 | intval's result always lies within the 64-bit range |
| `PhpInt.IntValWithoutLeadingDigits` | includes/class-user-meta.php:85 | a string with no digit right after its leading whitespace and optional sign becomes 0 |
| `PhpInt.IntValOfDecimal` | includes/class-user-meta.php:85 | intval reads every 64-bit id back from its decimal rendering |
| `UserMeta.RegisterBulkAction` | includes/class-user-meta.php:36-40 | the menu gains `lock` and `unlock` with their labels; every other entry is kept |
| `UserMeta.RegisterColumnHeader` | includes/class-user-meta.php:45-48 | the table gains the `locked` column; every other column is kept |
| `UserMeta.OutputColumn` | includes/class-user-meta.php:53-57 | any other column's output is returned unchanged; the `locked` cell reads "Locked" exactly when the user is locked and "Not Locked" exactly when not |
| `UserMeta.ColumnAgreesWithLoginGate` | includes/class-user-meta.php:53-57 | the column shows "Locked" for exactly the users the login filter turns away |
| `UserMeta.SelectedAction` | includes/class-user-meta.php:67 | a present `action` other than `-1` is selected; `action2` is selected when `action` is `-1`; an absent `action` selects nothing |
| `UserMeta.IntVals` | includes/class-user-meta.php:85 | every submitted id is converted by intval, in order |
| `UserMeta.TargetIds` | includes/class-user-meta.php:81-85 | ids exist exactly when `users` is a non-empty array, and are their intval images |
| `UserMeta.LockAllAt` | includes/class-user-meta.php:88-94 | lock writes `"yes"` for each listed id other than the caller's; the caller's and every unlisted row keep their old value or absence |
| `UserMeta.UnlockAllAt` | includes/class-user-meta.php:95-98 | unlock writes `""` for each listed id, the caller included; unlisted rows are unchanged |
| `UserMeta.LockAllIdempotent` | includes/class-user-meta.php:88-94 | locking the same ids twice gives the map locking them once gives |
| `UserMeta.UnlockAllIdempotent` | includes/class-user-meta.php:95-98 | unlocking the same ids twice gives the map unlocking them once gives |
| `UserMeta.UnlockUndoesLock` | includes/class-user-meta.php:88-98 | unlocking after a lock of the same ids leaves no trace of the lock |
| `UserMeta.Process` | includes/class-user-meta.php:62-106 | the meta is unchanged unless the request redirects; a lock/unlock request with a nonce that fails is stopped by the nonce check itself; it dies with "Security check failed." exactly when the nonce is missing and with the capability message exactly when a valid nonce comes from a caller without `edit_users`; it redirects exactly when all checks pass and `users` is a non-empty array, carrying the selected action as `lock_action_done` |
| `UserMeta.ProcessEffectAt` | includes/class-user-meta.php:88-99 | per user id, a redirected lock or unlock wrote exactly the listed rows (the caller excepted for lock) and a request that did not redirect wrote nothing |
| `UserMeta.CallerCannotLockSelf` | includes/class-user-meta.php:88-94 | a bulk lock leaves the caller's row as it was, and no request leaves the caller locked who was not locked before |
| `UserMeta.ProcessIdempotent` | includes/class-user-meta.php:62-106 | repeating a request gives the same outcome and changes nothing further |
| `UserMeta.LockEach` | includes/class-user-meta.php:88-94 | the lock loop leaves exactly the map `LockAll` states |
| `UserMeta.UnlockEach` | includes/class-user-meta.php:95-98 | the unlock loop leaves exactly the map `UnlockAll` states |
| `UserMeta.ProcessLockAction` | includes/class-user-meta.php:62-106 | the guards and loops return the outcome and leave exactly the meta that `Process` states |
| `UserMeta.LockActionNotice` | includes/class-user-meta.php:111-120 | a banner is shown exactly for `lock_action_done` equal to `lock` or `unlock`, with the matching text |
| `UserMeta.RedirectIsAnnounced` | includes/class-user-meta.php:102-119 | the page a successful request redirects to shows a notice |
| `UserMeta.LockScenario` | includes/class-user-meta.php:85-105 | caller 5 locking users 5, 7 and 9 locks 7 and 9, leaves the caller's own row exactly as it was (so an unlocked caller stays unlocked) and redirects with `lock_action_done=lock` |

## Left out

- `UserMeta.CallerCannotLockSelf`: holds for a store keyed by the id the plugin passes to `update_user_meta`. WordPress's meta API runs that id through `absint`, so a caller with id 5 who submits `users[]=-5` gets past the guard at line 90 (-5 is not 5) and line 93 writes the caller's own row; the model does not capture this.
- Hook registration (`add_filter`, `add_action`) and the instantiation of the two classes: wiring with no behaviour of its own.
- WordPress internals are inputs or outcome constructors: sessions, `wp_logout`, cookie storage, nonce and capability checks, `get_current_user_id`, `is_user_logged_in`.
- WordPress's own normalisation of object ids inside the meta API (`absint`, an id of 0 never stored or found) is not modelled; the store is keyed by the id the plugin passes.
- Translation (`__`, `esc_html__`), escaping (`esc_html`) and `sanitize_key` / `sanitize_text_field` are the identity; in particular the trimming that `sanitize_text_field` does to `lock_action_done` is not modelled.
- URL building (`remove_query_arg`, `add_query_arg`, `wp_get_referer`, `home_url`): only the `lock_action_done` value, and the page and `account_locked` value of the forced-logout redirect, are kept.
- The "Please try again" link that WordPress's nonce-failure page adds when there is a referer: `NonceRejected` carries no text.
- The order of entries in the PHP arrays of the bulk-action menu and the column list: they are maps here.
- `UserMeta.LockActionNotice`: returns the text it would echo instead of writing the markup to the page.
- `PhpInt.IntVal`: does not model numeric strings that PHP reads as a float before truncating: exponent forms such as `"1e3"` or `"2.5e1"` (1000, 25), and decimal fractions such as `"12345678901234567.9"`, whose value is rounded to a double, so above 2^53 PHP gives 12345678901234568 where the model gives 12345678901234567; here reading stops at the first non-digit.
- `LockUserAccount.LockedAccountLoginMessage`: PHP's loose comparison `== 1` is a parameter, not defined here; array-valued query fields are not modelled.
- Request fields that arrive as arrays where a string is expected (`action`, `action2`, `_wpnonce`, and an item of `users` such as `users[0][]=x`) are not modelled; `users` may be absent, a single value or an array of strings. An array item would reach `intval` at includes/class-user-meta.php:85, which gives 1 for a non-empty array, so such a request writes user 1's row unless the caller is user 1.
- The unused arguments of the XML-RPC filter (the password) and of the application-password filter (password, login, user record) are dropped.
- The admin-footer closure that prints a nonce field: output only.
- includes/class-settings-field.php is not part of this model.

## Findings

| source | as written | input that shows it | evidently intended | confidence | as-written member | corrected member |
|---|---|---|---|---|---|---|
| lock-user-account.php:142 | a locked user who is logged in is sent to `home_url('/?account_locked=1')`, the front page; the `login_message` filter at lines 149-155 runs only on wp-login.php, so its lock message is never shown after the forced logout | a logged-in user whose `baba_user_locked` is `"yes"`, no `wp_loginasuser_` cookie: the browser lands on `/?account_locked=1` of the front end and no lock message appears | redirect to the login page with `account_locked=1`, where the filter adds the lock message | medium, not executed | `LockUserAccount.ForcedLogoutShowsNoLockMessage` | `LockUserAccount.CorrectedLogoutShowsLockMessage` |

/** The bulk admin action of includes/class-user-meta.php: the "Lock" and
    "Unlock" entries of the users list, its "Locked" column, the request
    processor that writes the lock flag of the selected users, and the
    notice shown after the redirect. */
module UserMeta {
  import opened LockFlag
  import PhpInt
  import LockUserAccount

  /** Filter `bulk_actions-users`: the menu gains `lock` and `unlock`. */
  function RegisterBulkAction(actions: map<string, string>): (r: map<string, string>)
    ensures r.Keys == actions.Keys + {"lock", "unlock"}
    ensures r["lock"] == "Lock" && r["unlock"] == "Unlock"
    ensures forall k :: k in actions && k != "lock" && k != "unlock" ==> r[k] == actions[k]
  {
    actions["lock" := "Lock"]["unlock" := "Unlock"]
  }

  /** Filter `manage_users_columns`: the table gains the `locked` column. */
  function RegisterColumnHeader(columns: map<string, string>): (r: map<string, string>)
    ensures r.Keys == columns.Keys + {"locked"}
    ensures r["locked"] == "Locked"
    ensures forall k :: k in columns && k != "locked" ==> r[k] == columns[k]
  {
    columns["locked" := "Locked"]
  }

  /** Filter `manage_users_custom_column`: the cell text of one user. */
  function OutputColumn(output: string, columnName: string, userId: int, meta: MetaMap): (r: string)
    ensures columnName != "locked" ==> r == output
    ensures columnName == "locked" ==> (r == "Locked" <==> IsLocked(meta, userId))
    ensures columnName == "locked" ==> (r == "Not Locked" <==> !IsLocked(meta, userId))
  {
    if columnName != "locked" then output
    else if LockedValue == GetUserMeta(meta, userId) then "Locked"
    else "Not Locked"
  }

  /** The column shows "Locked" for exactly the users the login gate turns away. */
  lemma ColumnAgreesWithLoginGate(output: string, id: int, meta: MetaMap, config: Option<string>)
    ensures OutputColumn(output, "locked", id, meta) == "Locked"
            <==> LockUserAccount.CheckLock(LockUserAccount.UserObject(id), meta, config).Error?
  {
  }

  /** `$_REQUEST['users']`: absent, a single value, or an array of values. */
  datatype UsersField = Missing | Text(value: string) | List(items: seq<string>)

  /** The request fields the processor reads; `None` is a field that is not set. */
  datatype BulkRequest = BulkRequest(action: Option<string>, action2: Option<string>,
                                     nonce: Option<string>, users: UsersField)

  /** What the host answers about the caller: whether the submitted nonce
      passes `check_admin_referer('bulk-users')`, `current_user_can('edit_users')`
      and `get_current_user_id()`. */
  datatype AdminContext = AdminContext(nonceVerifies: bool, canEditUsers: bool, currentUserId: int)

  /** How `process_lock_action` ends the request. */
  datatype BulkOutcome =
    | Ignored                             // return: the admin page loads as usual
    | Died(message: string)               // wp_die(message)
    | NonceRejected                       // check_admin_referer's own wp_nonce_ays() page
                                          // ("The link you followed has expired.", 403), then die
    | Redirected(lockActionDone: string)  // wp_safe_redirect(... lock_action_done=<action> ...); exit

  const SecurityFailedMessage: string := "Security check failed."
  const NotAllowedMessage: string := "You are not allowed to perform this action."

  /** `$_REQUEST['action'] !== '-1' ? $_REQUEST['action'] : $_REQUEST['action2']`:
      an absent `action` is PHP's null, not a fallback to `action2`. */
  function SelectedAction(req: BulkRequest): (a: Option<string>)
    ensures req.action.None? ==> a.None?
    ensures req.action.Some? && req.action != Some("-1") ==> a == req.action
    ensures req.action == Some("-1") ==> a == req.action2
  {
    if req.action != Some("-1") then req.action else req.action2
  }

  predicate KnownAction(a: Option<string>)
  {
    a == Some("lock") || a == Some("unlock")
  }

  /** `array_map('intval', $_REQUEST['users'])`. */
  function IntVals(items: seq<string>): (ids: seq<int>)
    ensures |ids| == |items|
    ensures forall i :: 0 <= i < |items| ==> ids[i] == PhpInt.IntVal(items[i])
  {
    seq(|items|, i requires 0 <= i < |items| => PhpInt.IntVal(items[i]))
  }

  /** The ids to act on, or `None` when `users` is empty or not an array. */
  function TargetIds(users: UsersField): (r: Option<seq<int>>)
    ensures r.Some? <==> users.List? && users.items != []
    ensures r.Some? ==> r.value == IntVals(users.items)
  {
    if users.List? && users.items != [] then Some(IntVals(users.items)) else None
  }

  /** The meta after the lock loop has run over `ids`: every id but `self` gets "yes". */
  function LockAll(meta: MetaMap, ids: seq<int>, self: int): MetaMap
  {
    if ids == [] then meta
    else
      var before := LockAll(meta, ids[..|ids| - 1], self);
      var id := ids[|ids| - 1];
      if id == self then before else before[id := LockedValue]
  }

  /** The meta after the unlock loop has run over `ids`: every id gets "". */
  function UnlockAll(meta: MetaMap, ids: seq<int>): MetaMap
  {
    if ids == [] then meta
    else UnlockAll(meta, ids[..|ids| - 1])[ids[|ids| - 1] := UnlockedValue]
  }

  /** The row of `id` in a meta map, `None` when there is none. */
  function Entry(meta: MetaMap, id: int): (r: Option<string>)
    ensures r.Some? <==> id in meta
  {
    if id in meta then Some(meta[id]) else None
  }

  lemma SameEntriesSameMap(a: MetaMap, b: MetaMap)
    requires forall id :: Entry(a, id) == Entry(b, id)
    ensures a == b
  {
    assert a.Keys == b.Keys by {
      forall id | id in a ensures id in b { assert Entry(a, id).Some?; }
      forall id | id in b ensures id in a { assert Entry(b, id).Some?; }
    }
    forall id | id in a ensures a[id] == b[id] { assert Entry(a, id) == Entry(b, id); }
  }

  /** Lock writes "yes" for every listed id other than the caller's and
      leaves every other row, the caller's included, as it was. */
  lemma {:induction false} LockAllAt(meta: MetaMap, ids: seq<int>, self: int, id: int)
    ensures Entry(LockAll(meta, ids, self), id)
            == if id in ids && id != self then Some(LockedValue) else Entry(meta, id)
  {
    if ids != [] {
      var init := ids[..|ids| - 1];
      LockAllAt(meta, init, self, id);
      assert ids == init + [ids[|ids| - 1]];
    }
  }

  /** Unlock writes "" for every listed id, the caller's included, and
      leaves every unlisted row as it was. */
  lemma {:induction false} UnlockAllAt(meta: MetaMap, ids: seq<int>, id: int)
    ensures Entry(UnlockAll(meta, ids), id) == if id in ids then Some(UnlockedValue) else Entry(meta, id)
  {
    if ids != [] {
      var init := ids[..|ids| - 1];
      UnlockAllAt(meta, init, id);
      assert ids == init + [ids[|ids| - 1]];
    }
  }

  /** Locking the same ids again changes nothing. */
  lemma LockAllIdempotent(meta: MetaMap, ids: seq<int>, self: int)
    ensures LockAll(LockAll(meta, ids, self), ids, self) == LockAll(meta, ids, self)
  {
    var once := LockAll(meta, ids, self);
    forall id ensures Entry(LockAll(once, ids, self), id) == Entry(once, id) {
      LockAllAt(once, ids, self, id);
      LockAllAt(meta, ids, self, id);
    }
    SameEntriesSameMap(LockAll(once, ids, self), once);
  }

  /** Unlocking the same ids again changes nothing. */
  lemma UnlockAllIdempotent(meta: MetaMap, ids: seq<int>)
    ensures UnlockAll(UnlockAll(meta, ids), ids) == UnlockAll(meta, ids)
  {
    var once := UnlockAll(meta, ids);
    forall id ensures Entry(UnlockAll(once, ids), id) == Entry(once, id) {
      UnlockAllAt(once, ids, id);
      UnlockAllAt(meta, ids, id);
    }
    SameEntriesSameMap(UnlockAll(once, ids), once);
  }

  /** Unlocking the ids a lock just wrote leaves the same map as unlocking
      them straight away: nothing of the lock survives. */
  lemma UnlockUndoesLock(meta: MetaMap, ids: seq<int>, self: int)
    ensures UnlockAll(LockAll(meta, ids, self), ids) == UnlockAll(meta, ids)
  {
    forall id ensures Entry(UnlockAll(LockAll(meta, ids, self), ids), id) == Entry(UnlockAll(meta, ids), id) {
      UnlockAllAt(LockAll(meta, ids, self), ids, id);
      UnlockAllAt(meta, ids, id);
      LockAllAt(meta, ids, self, id);
    }
    SameEntriesSameMap(UnlockAll(LockAll(meta, ids, self), ids), UnlockAll(meta, ids));
  }

  /** `process_lock_action` as a function of the request, the caller and the
      meta before it: the outcome, and the meta after it. */
  function Process(req: BulkRequest, ctx: AdminContext, meta: MetaMap): (res: (BulkOutcome, MetaMap))
    ensures !res.0.Redirected? ==> res.1 == meta
    ensures res.0.NonceRejected? <==> KnownAction(SelectedAction(req)) && req.nonce.Some? && !ctx.nonceVerifies
    ensures res.0.Died? <==> KnownAction(SelectedAction(req)) && (req.nonce.None? || (ctx.nonceVerifies && !ctx.canEditUsers))
    ensures res.0.Died? ==> res.0.message == (if req.nonce.None? then SecurityFailedMessage else NotAllowedMessage)
    ensures res.0.Redirected? <==> KnownAction(SelectedAction(req)) && req.nonce.Some? && ctx.nonceVerifies
                                   && ctx.canEditUsers && TargetIds(req.users).Some?
    ensures res.0.Redirected? ==> SelectedAction(req) == Some(res.0.lockActionDone)
  {
    if req.action.None? && req.action2.None? then (Ignored, meta)
    else
      var action := SelectedAction(req);
      if !KnownAction(action) then (Ignored, meta)
      else if req.nonce.None? then (Died(SecurityFailedMessage), meta)
      else if !ctx.nonceVerifies then (NonceRejected, meta)
      else if !ctx.canEditUsers then (Died(NotAllowedMessage), meta)
      else match TargetIds(req.users)
        case None => (Ignored, meta)
        case Some(ids) =>
          if action.value == "lock" then (Redirected("lock"), LockAll(meta, ids, ctx.currentUserId))
          else (Redirected("unlock"), UnlockAll(meta, ids))
  }

  /** The effect of one request on the row of any id: a redirected lock
      wrote "yes" for listed ids other than the caller's, a redirected unlock
      wrote "" for every listed id, and nothing else changed. */
  lemma ProcessEffectAt(req: BulkRequest, ctx: AdminContext, meta: MetaMap, id: int)
    ensures var (outcome, after) := Process(req, ctx, meta);
            && (outcome == Redirected("lock") ==>
                  Entry(after, id) == if id in TargetIds(req.users).value && id != ctx.currentUserId
                                      then Some(LockedValue) else Entry(meta, id))
            && (outcome == Redirected("unlock") ==>
                  Entry(after, id) == if id in TargetIds(req.users).value
                                      then Some(UnlockedValue) else Entry(meta, id))
            && (!outcome.Redirected? ==> after == meta)
  {
    var (outcome, after) := Process(req, ctx, meta);
    if outcome.Redirected? {
      var ids := TargetIds(req.users).value;
      if outcome.lockActionDone == "lock" {
        LockAllAt(meta, ids, ctx.currentUserId, id);
      } else {
        UnlockAllAt(meta, ids, id);
      }
    }
  }

  /** No request can lock its own caller: a bulk lock leaves the caller's
      row exactly as it was, and any request leaves the caller locked only
      if the caller was locked before. */
  lemma CallerCannotLockSelf(req: BulkRequest, ctx: AdminContext, meta: MetaMap)
    ensures Process(req, ctx, meta).0 == Redirected("lock") ==>
            Entry(Process(req, ctx, meta).1, ctx.currentUserId) == Entry(meta, ctx.currentUserId)
    ensures IsLocked(Process(req, ctx, meta).1, ctx.currentUserId) ==> IsLocked(meta, ctx.currentUserId)
  {
    ProcessEffectAt(req, ctx, meta, ctx.currentUserId);
    var after := Process(req, ctx, meta).1;
    var self := ctx.currentUserId;
    assert Entry(after, self) == Some(GetUserMeta(after, self)) || self !in after;
  }

  /** Repeating a request gives the same outcome and leaves the meta as the
      first run left it. */
  lemma ProcessIdempotent(req: BulkRequest, ctx: AdminContext, meta: MetaMap)
    ensures var once := Process(req, ctx, meta);
            Process(req, ctx, once.1) == once
  {
    var once := Process(req, ctx, meta);
    if once.0.Redirected? {
      var ids := TargetIds(req.users).value;
      if once.0.lockActionDone == "lock" {
        LockAllIdempotent(meta, ids, ctx.currentUserId);
      } else {
        UnlockAllIdempotent(meta, ids);
      }
    }
  }

  /** The lock `foreach` of the processor: "yes" for every id but the caller's. */
  method LockEach(store: UserMetaStore, userIds: seq<int>, currentUserId: int)
    modifies store
    ensures store.entries == LockAll(old(store.entries), userIds, currentUserId)
  {
    ghost var before := store.entries;
    var i := 0;
    while i < |userIds|
      invariant 0 <= i <= |userIds|
      invariant store.entries == LockAll(before, userIds[..i], currentUserId)
    {
      var userId := userIds[i];
      assert userIds[..i + 1][..i] == userIds[..i];
      if userId != currentUserId {
        store.Update(userId, LockedValue);
      }
      i := i + 1;
    }
    assert userIds[..|userIds|] == userIds;
  }

  /** The unlock `foreach` of the processor: "" for every id. */
  method UnlockEach(store: UserMetaStore, userIds: seq<int>)
    modifies store
    ensures store.entries == UnlockAll(old(store.entries), userIds)
  {
    ghost var before := store.entries;
    var i := 0;
    while i < |userIds|
      invariant 0 <= i <= |userIds|
      invariant store.entries == UnlockAll(before, userIds[..i])
    {
      assert userIds[..i + 1][..i] == userIds[..i];
      store.Update(userIds[i], UnlockedValue);
      i := i + 1;
    }
    assert userIds[..|userIds|] == userIds;
  }

  /** Action `admin_init`: the processor itself, updating the host's meta
      store in place. */
  method ProcessLockAction(store: UserMetaStore, req: BulkRequest, ctx: AdminContext)
    returns (outcome: BulkOutcome)
    modifies store
    ensures (outcome, store.entries) == Process(req, ctx, old(store.entries))
  {
    if req.action.None? && req.action2.None? {
      return Ignored;
    }
    var action := SelectedAction(req);
    if action != Some("lock") && action != Some("unlock") {
      return Ignored;
    }
    if req.nonce.None? {
      return Died(SecurityFailedMessage);
    }
    if !ctx.nonceVerifies {
      return NonceRejected;
    }
    if !ctx.canEditUsers {
      return Died(NotAllowedMessage);
    }
    if !req.users.List? || req.users.items == [] {
      return Ignored;
    }
    var userIds := IntVals(req.users.items);
    if action == Some("lock") {
      LockEach(store, userIds, ctx.currentUserId);
    } else {
      UnlockEach(store, userIds);
    }
    return Redirected(action.value);
  }

  /** Action `admin_notices`: the banner text echoed for the
      `lock_action_done` query value, if any. */
  function LockActionNotice(lockActionDone: Option<string>): (r: Option<string>)
    ensures r.Some? <==> KnownAction(lockActionDone)
    ensures lockActionDone == Some("lock") ==> r == Some("Selected users have been locked.")
    ensures lockActionDone == Some("unlock") ==> r == Some("Selected users have been unlocked.")
  {
    match lockActionDone
    case None => None
    case Some(action) =>
      if action == "lock" then Some("Selected users have been locked.")
      else if action == "unlock" then Some("Selected users have been unlocked.")
      else None
  }

  /** Every successful request ends on a page that shows the notice for
      the action it performed. */
  lemma RedirectIsAnnounced(req: BulkRequest, ctx: AdminContext, meta: MetaMap)
    ensures Process(req, ctx, meta).0.Redirected? ==>
            LockActionNotice(Some(Process(req, ctx, meta).0.lockActionDone)).Some?
  {
  }

  /** The users list renders ids 5, 7 and 9 as strings that read back as 5, 7 and 9. */
  lemma ScenarioIds()
    ensures IntVals([PhpInt.Decimal(5), PhpInt.Decimal(7), PhpInt.Decimal(9)]) == [5, 7, 9]
  {
    PhpInt.IntValOfDecimal(5);
    PhpInt.IntValOfDecimal(7);
    PhpInt.IntValOfDecimal(9);
  }

  /** A privileged caller 5 locks users 5, 7 and 9 (submitted as the list
      renders them): 7 and 9 are locked, 5 is not, and the redirect carries
      `lock_action_done=lock`. */
  lemma LockScenario(meta: MetaMap)
    requires !IsLocked(meta, 5)
    ensures var req := BulkRequest(Some("lock"), Some("-1"), Some("nonce"),
                                   List([PhpInt.Decimal(5), PhpInt.Decimal(7), PhpInt.Decimal(9)]));
            var (outcome, after) := Process(req, AdminContext(true, true, 5), meta);
            && outcome == Redirected("lock")
            && IsLocked(after, 7) && IsLocked(after, 9)
            && Entry(after, 5) == Entry(meta, 5) && !IsLocked(after, 5)
  {
    var items := [PhpInt.Decimal(5), PhpInt.Decimal(7), PhpInt.Decimal(9)];
    ScenarioIds();
    var req := BulkRequest(Some("lock"), Some("-1"), Some("nonce"), List(items));
    assert SelectedAction(req) == Some("lock");
    assert TargetIds(req.users) == Some([5, 7, 9]);
    assert Process(req, AdminContext(true, true, 5), meta) == (Redirected("lock"), LockAll(meta, [5, 7, 9], 5));
    LockAllAt(meta, [5, 7, 9], 5, 5);
    LockAllAt(meta, [5, 7, 9], 5, 7);
    LockAllAt(meta, [5, 7, 9], 5, 9);
  }
}

/** The per-user lock flag shared by the authentication gate and the bulk
    admin action: the user-meta key `baba_user_locked` ("yes", "" or absent)
    and the optional configured message `baba_locked_message`. */
module LockFlag {

  datatype Option<+T> = None | Some(value: T)

  /** The user-meta store restricted to the key `baba_user_locked`:
      user id to stored value. An id that is not a key has no meta row. */
  type MetaMap = map<int, string>

  const LockedValue: string := "yes"
  const UnlockedValue: string := ""

  /** `get_user_meta($id, 'baba_user_locked', true)`: the stored value, or
      the empty string when the user has no such row. */
  function GetUserMeta(meta: MetaMap, id: int): (v: string)
    ensures id !in meta ==> v == ""
    ensures id in meta ==> v == meta[id]
  {
    if id in meta then meta[id] else ""
  }

  /** The strict comparison `'yes' === get_user_meta(...)` used by every check. */
  predicate IsLocked(meta: MetaMap, id: int)
  {
    GetUserMeta(meta, id) == LockedValue
  }

  /** PHP truthiness of a string: only "" and "0" are falsy. */
  predicate Truthy(s: string)
  {
    s != "" && s != "0"
  }

  /** `$msg = get_option('baba_locked_message'); $msg ? $msg : $fallback`.
      `None` is an option that was never saved (get_option yields false). */
  function LockMessage(config: Option<string>, fallback: string): (r: string)
    ensures config.Some? && Truthy(config.value) ==> r == config.value
    ensures (config.None? || !Truthy(config.value)) ==> r == fallback
    ensures Truthy(fallback) ==> Truthy(r)
  {
    match config
    case Some(m) => if Truthy(m) then m else fallback
    case None => fallback
  }

  /** The host's user-meta table for the lock key, updated in place by
      `update_user_meta`. */
  class UserMetaStore {
    var entries: MetaMap

    constructor (initial: MetaMap)
      ensures entries == initial
    {
      entries := initial;
    }

    /** `update_user_meta($id, 'baba_user_locked', $value)`: the row is
        created or overwritten; no other user's row changes. */
    method Update(id: int, value: string)
      modifies this
      ensures entries == old(entries)[id := value]
      ensures GetUserMeta(entries, id) == value
      ensures forall k :: k != id ==> GetUserMeta(entries, k) == GetUserMeta(old(entries), k)
    {
      entries := entries[id := value];
    }
  }
}

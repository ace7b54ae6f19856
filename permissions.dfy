/**
 * The annotation permissions service: it builds the read/update/delete
 * access lists attached to an annotation, chooses between a private and a
 * group-shared list from the saved privacy preference, and answers whether a
 * list is shared with a group and whether it lets a given principal act.
 */
module PermissionsService {
  import opened Wrappers
  import opened Settings

  /** A user id such as "acct:flash@gord.on"; `None` is an absent (anonymous) user. */
  type UserId = Option<string>

  type GroupId = string

  /** A principal token in an access list: a user id, a "group:<id>" token, or absent. */
  type Token = Option<string>

  const GroupPrefix: string := "group:"

  /** Key under which the settings store keeps the default privacy level. */
  const PrivacyKey: string := "annotationPrivacy"

  const PrivateLevel: string := "private"

  datatype Action = Read | Update | Delete

  datatype PermissionSet = PermissionSet(read: seq<Token>, update: seq<Token>, delete: seq<Token>)

  /** The access list of `p` for `action`. */
  function Grantees(p: PermissionSet, action: Action): seq<Token>
  {
    match action
    case Read => p.read
    case Update => p.update
    case Delete => p.delete
  }

  predicate IsGroupToken(t: Token)
  {
    t.Some? && GroupPrefix <= t.value
  }

  /** The token that grants a whole group. */
  function GroupToken(groupid: GroupId): (t: Token)
    ensures IsGroupToken(t)
    ensures t.value[|GroupPrefix|..] == groupid
  {
    Some(GroupPrefix + groupid)
  }

  /** JavaScript truthiness of a user id: present and not the empty string. */
  predicate Truthy(userid: UserId)
  {
    userid.Some? && userid.value != ""
  }

  /** Permissions that give every action to the user alone. */
  function Private(userid: UserId): (p: PermissionSet)
    ensures forall action :: Grantees(p, action) == [userid]
  {
    PermissionSet([userid], [userid], [userid])
  }

  /** Permissions that let the group read and the user alone update and delete. */
  function Shared(userid: UserId, groupid: GroupId): (p: PermissionSet)
    ensures p == Private(userid).(read := [GroupToken(groupid)])
  {
    PermissionSet([GroupToken(groupid)], [userid], [userid])
  }

  /** Index of the first occurrence of `x` in `s`, or -1 when there is none. */
  function IndexOf(s: seq<Token>, x: Token): (i: int)
    ensures -1 <= i < |s|
    ensures i == -1 <==> x !in s
    ensures 0 <= i ==> s[i] == x && x !in s[..i]
  {
    if s == [] then -1
    else if s[0] == x then 0
    else
      var j := IndexOf(s[1..], x);
      if j == -1 then -1 else j + 1
  }

  /** Whether some token of `s` is a group token, scanning from the front. */
  function AnyGroupToken(s: seq<Token>): (r: bool)
    ensures r <==> exists i :: 0 <= i < |s| && IsGroupToken(s[i])
  {
    if s == [] then false
    else if IsGroupToken(s[0]) then true
    else AnyGroupToken(s[1..])
  }

  /** A set is shared when some group may read it. */
  function IsShared(p: PermissionSet): (r: bool)
    ensures r <==> exists t :: t in p.read && IsGroupToken(t)
  {
    AnyGroupToken(p.read)
  }

  /** Literal membership of `userid` in the list for `action`; group tokens are not expanded. */
  function Permits(p: PermissionSet, action: Action, userid: UserId): (r: bool)
    ensures r <==> userid in Grantees(p, action)
  {
    IndexOf(Grantees(p, action), userid) != -1
  }

  /**
   * The permissions a new annotation gets: private when the saved level is
   * exactly "private" and a user is present, shared with the group otherwise.
   * The read list never names an absent principal, whatever the inputs.
   */
  function DefaultPermissions(saved: Option<string>, userid: UserId, groupid: GroupId): (p: PermissionSet)
    ensures |p.read| == 1
    ensures forall t :: t in p.read ==> Truthy(t)
    ensures p.update == [userid] && p.delete == [userid]
  {
    if Truthy(userid) && saved == Some(PrivateLevel) then Private(userid) else Shared(userid, groupid)
  }

  /** The permissions service, holding the settings store it was built over. */
  class Permissions {
    const store: SettingsStore

    constructor (store: SettingsStore)
      ensures this.store == store
    {
      this.store := store;
    }

    /** Default permissions for a new annotation, from the level saved in the store. */
    method Default(userid: UserId, groupid: GroupId) returns (p: PermissionSet)
      ensures p == DefaultPermissions(Lookup(store.defaults, PrivacyKey), userid, groupid)
    {
      var saved := store.GetDefault(PrivacyKey);
      p := DefaultPermissions(saved, userid, groupid);
    }

    /** Saves `level` as the default privacy level; no other setting changes. */
    method SetDefault(level: string)
      modifies store
      ensures store.defaults == old(store.defaults)[PrivacyKey := level]
    {
      store.SetDefault(PrivacyKey, level);
    }
  }

  /** Saving a level and then asking for the default reads that level back. */
  method SaveThenDefault(perms: Permissions, level: string, userid: UserId, groupid: GroupId)
    returns (p: PermissionSet)
    modifies perms.store
    ensures perms.store.defaults == old(perms.store.defaults)[PrivacyKey := level]
    ensures p == DefaultPermissions(Some(level), userid, groupid)
  {
    perms.SetDefault(level);
    p := perms.Default(userid, groupid);
  }

  // Properties of the service.

  lemma DefaultWithoutSavedLevel(userid: UserId, groupid: GroupId)
    ensures DefaultPermissions(None, userid, groupid) == Shared(userid, groupid)
  {
  }

  lemma DefaultWithPrivateLevel(userid: UserId, groupid: GroupId)
    requires Truthy(userid)
    ensures DefaultPermissions(Some(PrivateLevel), userid, groupid) == Private(userid)
  {
  }

  /** Guard against the "split-null" defect: no user means shared, even when "private" is saved. */
  lemma DefaultWithoutUser(saved: Option<string>, groupid: GroupId)
    ensures DefaultPermissions(saved, None, groupid) == Shared(None, groupid)
    ensures IsShared(DefaultPermissions(saved, None, groupid))
  {
  }

  /** The default rule without the user guard: the saved level alone decides. */
  function UnguardedDefault(saved: Option<string>, userid: UserId, groupid: GroupId): PermissionSet
  {
    if saved == Some(PrivateLevel) then Private(userid) else Shared(userid, groupid)
  }

  /**
   * Why the guard is needed: without it, "private" saved and no user gives the
   * "split-null" set whose only reader is absent, which the guarded rule never does.
   */
  lemma UnguardedDefaultNamesNoReader(groupid: GroupId)
    ensures UnguardedDefault(Some(PrivateLevel), None, groupid).read == [None]
    ensures !exists t :: t in UnguardedDefault(Some(PrivateLevel), None, groupid).read && Truthy(t)
    ensures forall t :: t in DefaultPermissions(Some(PrivateLevel), None, groupid).read ==> Truthy(t)
  {
  }

  /** Any level other than exactly "private" ("shared" included) gives shared permissions. */
  lemma DefaultWithOtherLevel(level: string, userid: UserId, groupid: GroupId)
    requires level != PrivateLevel
    ensures DefaultPermissions(Some(level), userid, groupid) == Shared(userid, groupid)
  {
  }

  /** The default is private exactly when "private" is saved and a user is present. */
  lemma DefaultIsSharedIff(saved: Option<string>, userid: UserId, groupid: GroupId)
    ensures !IsShared(DefaultPermissions(saved, userid, groupid))
        <==> saved == Some(PrivateLevel) && Truthy(userid) && !IsGroupToken(userid)
  {
  }

  lemma SharedIsShared(userid: UserId, groupid: GroupId)
    ensures IsShared(Shared(userid, groupid))
  {
  }

  /** A private set counts as shared only when the user id itself looks like a group token. */
  lemma PrivateIsSharedIff(userid: UserId)
    ensures IsShared(Private(userid)) <==> IsGroupToken(userid)
  {
  }

  lemma PermitsPrivate(owner: UserId, action: Action, userid: UserId)
    ensures Permits(Private(owner), action, userid) <==> userid == owner
  {
  }

  /** On a shared set only the group token may read, and only the owner may update or delete. */
  lemma PermitsShared(owner: UserId, groupid: GroupId, action: Action, userid: UserId)
    ensures action == Read ==> (Permits(Shared(owner, groupid), action, userid) <==> userid == GroupToken(groupid))
    ensures action != Read ==> (Permits(Shared(owner, groupid), action, userid) <==> userid == owner)
  {
  }

  /**
   * From any store contents, once a level is saved the next default is not
   * shared exactly when that level is "private" and a user who is not a group
   * token is present.
   */
  lemma SetDefaultThenDefault(defaults: map<string, string>, level: string, userid: UserId, groupid: GroupId)
    ensures !IsShared(DefaultPermissions(Lookup(defaults[PrivacyKey := level], PrivacyKey), userid, groupid))
        <==> level == PrivateLevel && Truthy(userid) && !IsGroupToken(userid)
  {
  }
}

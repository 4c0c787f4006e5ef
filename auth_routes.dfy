// Workspace user and API-key handlers of the auth service
// (pkg/auth/http.go): role counting, the guards of role binding,
// invitation and removal, the e-mail domain allowlist, API-key masking and
// the key limit. Auth0, the metadata service and the key database are
// parameters: each answer arrives as a `Result`.

module AuthRoutes {
  import opened Common
  import opened HttpServerAuth

  /** A handler's answer: a value, an HTTP rejection, an upstream error passed through, or a Go panic. */
  datatype Reply<T> = Done(value: T) | Rejected(status: nat, message: string) | Failed(error: string) | Panicked

  const StatusBadRequest: nat := 400
  const StatusNotFound: nat := 404
  const StatusNotAcceptable: nat := 406

  const SelfModificationMessage: string := "admin user permission can't be modified by self"
  const MaxUsersMessage: string := "cannot invite new user, max users reached"

  /**
   * An Auth0 user: `workspaceAccess` maps a workspace ID to the user's role
   * there; `None` is Go's nil map, which reads as empty but panics on a write.
   */
  datatype User = User(userId: string, email: string, workspaceAccess: Option<map<string, Role>>)

  /** The user's access map as it reads: a nil map reads as empty. */
  function Access(u: User): map<string, Role>
  {
    match u.workspaceAccess
    case None => map[]
    case Some(m) => m
  }

  // ---------------------------------------------------------------------
  // ListRoles
  // ---------------------------------------------------------------------

  datatype RoleSummary = RoleSummary(role: Role, description: string, userCount: nat)

  const AdminDescription: string := "The Administrator role is a super user role with all of the capabilities that can be assigned to a role, and its enables access to all data & configuration on a Kaytu Workspace. You cannot edit or delete the Administrator role."
  const EditorDescription: string := "Provide full access to manage all capabilities in a workspace, with three exceptions: Changing Workspace Settings, Modifying Integrations, and making changes to user access controls."
  const ViewerDescription: string := "View all resources, but does not allow you to make any changes or trigger any action (running asset discovery)."

  /** The user holds `role` in the workspace (a missing entry holds no role). */
  predicate HoldsRole(u: User, workspaceId: string, role: Role)
  {
    workspaceId in Access(u) && Access(u)[workspaceId] == role
  }

  /** The number of users holding `role` in the workspace. */
  function CountRole(users: seq<User>, workspaceId: string, role: Role): nat
  {
    if |users| == 0 then 0
    else CountRole(users[..|users| - 1], workspaceId, role) + (if HoldsRole(users[|users| - 1], workspaceId, role) then 1 else 0)
  }

  /** The number of users holding any of the three roles. */
  function CountSupported(users: seq<User>, workspaceId: string): nat
  {
    if |users| == 0 then 0
    else
      var u := users[|users| - 1];
      CountSupported(users[..|users| - 1], workspaceId) +
        (if workspaceId in Access(u) && Supported(Access(u)[workspaceId]) then 1 else 0)
  }

  /** ListRoles: one counting pass, answered in the order Admin, Editor, Viewer. */
  method ListRoles(users: seq<User>, workspaceId: string) returns (res: seq<RoleSummary>)
    ensures |res| == 3
    ensures res[0] == RoleSummary(AdminRole, AdminDescription, CountRole(users, workspaceId, AdminRole))
    ensures res[1] == RoleSummary(EditorRole, EditorDescription, CountRole(users, workspaceId, EditorRole))
    ensures res[2] == RoleSummary(ViewerRole, ViewerDescription, CountRole(users, workspaceId, ViewerRole))
  {
    var adminCount: nat := 0;
    var viewerCount: nat := 0;
    var editorCount: nat := 0;
    var i := 0;
    while i < |users|
      invariant 0 <= i <= |users|
      invariant adminCount == CountRole(users[..i], workspaceId, AdminRole)
      invariant viewerCount == CountRole(users[..i], workspaceId, ViewerRole)
      invariant editorCount == CountRole(users[..i], workspaceId, EditorRole)
    {
      assert users[..i + 1][..i] == users[..i];
      var u := users[i];
      if workspaceId in Access(u) {
        var role := Access(u)[workspaceId];
        if role == AdminRole {
          adminCount := adminCount + 1;
        } else if role == ViewerRole {
          viewerCount := viewerCount + 1;
        } else if role == EditorRole {
          editorCount := editorCount + 1;
        }
      }
      i := i + 1;
    }
    assert users[..|users|] == users;
    res := [
      RoleSummary(AdminRole, AdminDescription, adminCount),
      RoleSummary(EditorRole, EditorDescription, editorCount),
      RoleSummary(ViewerRole, ViewerDescription, viewerCount)];
  }

  /**
   * The three counts partition the users holding a supported role: users
   * with no entry or another role are not counted, so together the counts
   * never exceed the number of users.
   */
  lemma {:induction false} RoleCountsPartitionSupportedUsers(users: seq<User>, workspaceId: string)
    ensures CountRole(users, workspaceId, AdminRole) + CountRole(users, workspaceId, EditorRole) +
            CountRole(users, workspaceId, ViewerRole) == CountSupported(users, workspaceId)
    ensures CountSupported(users, workspaceId) <= |users|
  {
    if |users| > 0 {
      RoleCountsPartitionSupportedUsers(users[..|users| - 1], workspaceId);
    }
  }

  // ---------------------------------------------------------------------
  // Role bindings and invitations
  // ---------------------------------------------------------------------

  /** Adding one more user to a workspace of `userCount` users must stay within `maxUsers`. */
  predicate WithinUserLimit(userCount: nat, maxUsers: int)
  {
    userCount + 1 <= maxUsers
  }

  /**
   * PutRoleBinding: a caller may only set their own role to admin; a user
   * new to the workspace must fit the user limit; the user's access map is
   * then patched for this workspace only, which panics when the user has no
   * access map at all (a nil map). `Done` carries the patched map.
   */
  function PutRoleBinding(callerId: string, workspaceId: string, targetId: string, role: Role,
                          getUser: string -> Result<User>, maxUsers: Result<int>,
                          workspaceUsers: Result<seq<User>>, patchError: Option<string>): (r: Reply<map<string, Role>>)
    ensures callerId == targetId && role != AdminRole ==> r == Rejected(StatusBadRequest, SelfModificationMessage)
    ensures r == Rejected(StatusNotAcceptable, MaxUsersMessage) <==>
      && !(callerId == targetId && role != AdminRole)
      && getUser(targetId).Ok?
      && workspaceId !in Access(getUser(targetId).value)
      && maxUsers.Ok? && workspaceUsers.Ok?
      && !WithinUserLimit(|workspaceUsers.value|, maxUsers.value)
    ensures r.Panicked? <==>
      && !(callerId == targetId && role != AdminRole)
      && getUser(targetId).Ok?
      && getUser(targetId).value.workspaceAccess.None?
      && maxUsers.Ok? && workspaceUsers.Ok?
      && WithinUserLimit(|workspaceUsers.value|, maxUsers.value)
    ensures r.Done? ==> (
      && getUser(targetId).Ok?
      && getUser(targetId).value.workspaceAccess.Some?
      && r.value == Access(getUser(targetId).value)[workspaceId := role]
      && patchError.None?)
    ensures r.Done? && workspaceId !in Access(getUser(targetId).value) ==>
      maxUsers.Ok? && workspaceUsers.Ok? && WithinUserLimit(|workspaceUsers.value|, maxUsers.value)
  {
    if callerId == targetId && role != AdminRole then Rejected(StatusBadRequest, SelfModificationMessage)
    else
      match getUser(targetId)
      case Err(e) => Failed(e)
      case Ok(user) =>
        var limitCheck: Reply<()> :=
          if workspaceId in Access(user) then Done(())
          else if maxUsers.Err? then Failed(maxUsers.error)
          else if workspaceUsers.Err? then Failed(workspaceUsers.error)
          else if !WithinUserLimit(|workspaceUsers.value|, maxUsers.value) then Rejected(StatusNotAcceptable, MaxUsersMessage)
          else Done(());
        if !limitCheck.Done? then
          (match limitCheck case Rejected(s, m) => Rejected(s, m) case Failed(e) => Failed(e) case Panicked => Reply.Panicked)
        else if user.workspaceAccess.None? then Reply.Panicked
        else if patchError.Some? then Failed(patchError.value)
        else Done(Access(user)[workspaceId := role])
  }

  /** A user already in the workspace is re-bound without consulting the user limit. */
  lemma MemberRebindIgnoresLimit(callerId: string, workspaceId: string, targetId: string, role: Role,
                                 getUser: string -> Result<User>, maxUsers: Result<int>,
                                 workspaceUsers: Result<seq<User>>, maxUsers2: Result<int>,
                                 workspaceUsers2: Result<seq<User>>)
    requires getUser(targetId).Ok? && workspaceId in Access(getUser(targetId).value)
    ensures PutRoleBinding(callerId, workspaceId, targetId, role, getUser, maxUsers, workspaceUsers, None) ==
            PutRoleBinding(callerId, workspaceId, targetId, role, getUser, maxUsers2, workspaceUsers2, None)
  {
  }

  /**
   * DeleteRoleBinding and DeleteInvitation: a caller may not remove
   * themself; otherwise only this workspace's entry is removed.
   */
  function RemoveWorkspaceAccess(callerId: string, workspaceId: string, userId: string,
                                 getUser: string -> Result<User>, patchError: Option<string>): (r: Reply<map<string, Role>>)
    ensures callerId == userId ==> r == Rejected(StatusBadRequest, SelfModificationMessage)
    ensures r.Done? ==> callerId != userId && getUser(userId).Ok? && patchError.None?
    ensures r.Done? ==> workspaceId !in r.value
    ensures r.Done? ==> forall w :: w != workspaceId ==> (
      (w in r.value <==> w in Access(getUser(userId).value)) &&
      (w in r.value ==> r.value[w] == Access(getUser(userId).value)[w]))
  {
    if callerId == userId then Rejected(StatusBadRequest, SelfModificationMessage)
    else
      match getUser(userId)
      case Err(e) => Failed(e)
      case Ok(user) =>
        if patchError.Some? then Failed(patchError.value)
        else Done(Access(user) - {workspaceId})
  }

  /** The value of the allowed-e-mail-domains setting: a list, or something else. */
  datatype DomainsSetting = DomainList(domains: seq<string>) | NotAList

  /** The allowlist loop of Invite. */
  method EmailDomainAllowed(email: string, domains: seq<string>) returns (passed: bool)
    ensures passed <==> |domains| == 0 || exists d :: d in domains && HasSuffix(email, d)
  {
    passed := false;
    if |domains| > 0 {
      var i := 0;
      while i < |domains|
        invariant 0 <= i <= |domains|
        invariant passed <==> exists d :: d in domains[..i] && HasSuffix(email, d)
      {
        assert domains[..i + 1] == domains[..i] + [domains[i]];
        if HasSuffix(email, domains[i]) {
          passed := true;
        }
        i := i + 1;
      }
      assert domains[..|domains|] == domains;
    } else {
      passed := true;
    }
  }

  predicate DomainAllowed(email: string, setting: DomainsSetting)
  {
    setting.NotAList? || |setting.domains| == 0 || exists d :: d in setting.domains && HasSuffix(email, d)
  }

  /**
   * The guards of Invite, in order: inviting must be allowed, the
   * workspace must have room for one more user, and the e-mail must match
   * the domain allowlist when the setting is a list.
   */
  function InviteGuard(email: string, allowInvite: Result<bool>, maxUsers: Result<int>,
                       workspaceUsers: Result<seq<User>>, domains: Result<DomainsSetting>): (r: Reply<()>)
    ensures r.Done? <==>
      && allowInvite == Ok(true)
      && maxUsers.Ok? && workspaceUsers.Ok? && WithinUserLimit(|workspaceUsers.value|, maxUsers.value)
      && domains.Ok? && DomainAllowed(email, domains.value)
    ensures allowInvite == Ok(false) ==> r == Rejected(StatusNotAcceptable, "invite not allowed")
    ensures r == Rejected(StatusNotAcceptable, "email domain not allowed") ==>
      domains.Ok? && domains.value.DomainList? && |domains.value.domains| > 0
  {
    if allowInvite.Err? then Failed(allowInvite.error)
    else if !allowInvite.value then Rejected(StatusNotAcceptable, "invite not allowed")
    else if maxUsers.Err? then Failed(maxUsers.error)
    else if workspaceUsers.Err? then Failed(workspaceUsers.error)
    else if !WithinUserLimit(|workspaceUsers.value|, maxUsers.value) then Rejected(StatusNotAcceptable, MaxUsersMessage)
    else if domains.Err? then Failed(domains.error)
    else if !DomainAllowed(email, domains.value) then Rejected(StatusNotAcceptable, "email domain not allowed")
    else Done(())
  }

  /**
   * An invited user who already exists gains the role in this workspace;
   * other entries stay.  Invite first replaces a nil access map by an empty
   * one, so this write cannot panic.
   */
  function InvitedAccess(existing: User, workspaceId: string, role: Role): (m: map<string, Role>)
    ensures workspaceId in m && m[workspaceId] == role
    ensures forall w :: w != workspaceId ==> (w in m <==> w in Access(existing))
    ensures forall w :: w != workspaceId && w in m ==> m[w] == Access(existing)[w]
  {
    Access(existing)[workspaceId := role]
  }

  // ---------------------------------------------------------------------
  // API keys
  // ---------------------------------------------------------------------

  /** The masked key: the first 3 and last 2 characters of the token; a token under 3 characters panics (`None`). */
  function MaskToken(token: string): (m: Option<string>)
    ensures m.None? <==> |token| < 3
    ensures m.Some? ==> |m.value| == 8
    ensures m.Some? ==> m.value[..3] == token[..3] && m.value[3..6] == "..." && m.value[6..] == token[|token| - 2..]
  {
    if |token| < 3 then None else Some(token[..3] + "..." + token[|token| - 2..])
  }

  datatype ApiKey = ApiKey(
    name: string,
    role: Role,
    creatorUserId: string,
    workspaceId: string,
    active: bool,
    revoked: bool,
    maskedKey: string,
    keyHash: string)

  /**
   * CreateAPIKey after the user lookup and token signing: key support must
   * be on, the token is masked, and the workspace must have room for one
   * more key. `Done` carries the key record to be stored.
   */
  function CreateApiKey(userId: string, workspaceId: string, name: string, role: Role,
                        keySupport: Result<bool>, token: string, keyHash: string,
                        currentKeyCount: Result<int>, maxKeys: Result<int>): (r: Reply<ApiKey>)
    ensures keySupport == Ok(false) ==> r == Rejected(StatusNotAcceptable, "keys are not supported in this workspace")
    ensures r.Panicked? <==> keySupport == Ok(true) && |token| < 3
    ensures r == Rejected(StatusNotAcceptable, "maximum number of keys in workspace reached") <==>
      keySupport == Ok(true) && |token| >= 3 && currentKeyCount.Ok? && maxKeys.Ok? && currentKeyCount.value + 1 > maxKeys.value
    ensures r.Done? ==> (
      && keySupport == Ok(true)
      && currentKeyCount.Ok? && maxKeys.Ok? && currentKeyCount.value + 1 <= maxKeys.value
      && r.value.active && !r.value.revoked
      && Some(r.value.maskedKey) == MaskToken(token)
      && r.value == ApiKey(name, role, userId, workspaceId, true, false, r.value.maskedKey, keyHash))
  {
    if keySupport.Err? then Failed(keySupport.error)
    else if !keySupport.value then Rejected(StatusNotAcceptable, "keys are not supported in this workspace")
    else
      match MaskToken(token)
      case None => Reply.Panicked
      case Some(masked) =>
        if currentKeyCount.Err? then Failed(currentKeyCount.error)
        else if maxKeys.Err? then Failed(maxKeys.error)
        else if currentKeyCount.value + 1 > maxKeys.value then
          Rejected(StatusNotAcceptable, "maximum number of keys in workspace reached")
        else Done(ApiKey(name, role, userId, workspaceId, true, false, masked, keyHash))
  }

  /** A stored key as the database returns it; the zero record (ID 0) stands for "not found". */
  datatype StoredKey = StoredKey(id: nat, key: ApiKey)

  /** GetAPIKey: a key whose ID is 0 is answered with 404. */
  function GetApiKey(fetched: Result<StoredKey>): (r: Reply<StoredKey>)
    ensures r == Rejected(StatusNotFound, "api key not found") <==> fetched.Ok? && fetched.value.id == 0
    ensures r.Done? <==> fetched.Ok? && fetched.value.id != 0
    ensures r.Done? ==> r.value == fetched.value
  {
    match fetched
    case Err(e) => Failed(e)
    case Ok(k) => if k.id == 0 then Rejected(StatusNotFound, "api key not found") else Done(k)
  }
}

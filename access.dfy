/**
 * The admin portal's permission derivation (manager_PC/auto-service-admin/src/access.ts).
 * `getAccess` reads the stored `userInfo` text and parses it as JSON; both
 * the storage read and the parser are outside the model, so the stored text
 * and what parsing it produced are parameters.
 */
module Access {
  import opened Wrappers

  /** The outcome of `JSON.parse(userInfoStr)` as far as `getAccess` looks at it. */
  datatype Parsed =
    | Malformed                            // the parser threw
    | NotAnObject                          // `null`: reading `.roles` throws
    | UserObject(roles: Option<seq<string>>) // `roles` absent (or falsy) is `None`

  /** The record `getAccess` returns. */
  datatype AccessKeys = AccessKeys(
    isLogin: bool,
    isAdmin: bool,
    isOperator: bool,
    isAnalyst: bool,
    canManageUser: bool,
    canManageShop: bool,
    canManageSupplier: bool,
    canManageBrand: bool,
    canManageCategory: bool,
    canManagePurchase: bool,
    canManageBid: bool,
    canManageOrder: bool)

  /**
   * The role list: empty unless a non-empty text was stored and parsed to an
   * object with roles; every failure on the way is caught.
   */
  function Roles(userInfoStr: Option<string>, parsed: Parsed): (roles: seq<string>)
    ensures roles != [] ==> userInfoStr.Some? && userInfoStr.value != "" && parsed.UserObject?
    ensures userInfoStr.Some? && userInfoStr.value != "" && parsed.UserObject? && parsed.roles.Some? ==>
              roles == parsed.roles.value
  {
    if userInfoStr.Some? && userInfoStr.value != "" then
      match parsed
      case UserObject(Some(rs)) => rs
      case _ => []
    else []
  }

  /** The flags for a role list, with the login flag given. */
  function AccessFor(isLogin: bool, roles: seq<string>): AccessKeys {
    var admin, operator := "admin" in roles, "operator" in roles;
    var manage := admin || operator;
    AccessKeys(isLogin, admin, operator || admin, "analyst" in roles || admin, admin,
               manage, manage, manage, manage, manage, manage, manage)
  }

  /** `getAccess()` */
  function GetAccess(userInfoStr: Option<string>, parsed: Parsed): (a: AccessKeys)
    ensures a.isLogin <==> userInfoStr.Some? && userInfoStr.value != ""
    ensures var roles := Roles(userInfoStr, parsed);
            && (a.isAdmin <==> "admin" in roles) && (a.canManageUser <==> "admin" in roles)
            && (a.isOperator <==> "operator" in roles || "admin" in roles)
            && (a.isAnalyst <==> "analyst" in roles || "admin" in roles)
  {
    AccessFor(userInfoStr.Some? && userInfoStr.value != "", Roles(userInfoStr, parsed))
  }

  /** Every `canManage*` flag other than user management. */
  predicate ManagesAllButUsers(a: AccessKeys) {
    a.canManageShop && a.canManageSupplier && a.canManageBrand && a.canManageCategory
    && a.canManagePurchase && a.canManageBid && a.canManageOrder
  }

  /** No `canManage*` flag at all. */
  predicate ManagesNothing(a: AccessKeys) {
    !a.canManageUser && !a.canManageShop && !a.canManageSupplier && !a.canManageBrand && !a.canManageCategory
    && !a.canManagePurchase && !a.canManageBid && !a.canManageOrder
  }

  /** No role flag and no `canManage*` flag. */
  predicate NoRoleFlags(a: AccessKeys) {
    !a.isAdmin && !a.isOperator && !a.isAnalyst && ManagesNothing(a)
  }

  /** The seven shared `canManage*` flags all hold, or none does, exactly as admin or operator is present. */
  lemma ManageFlagsFollowAdminOrOperator(userInfoStr: Option<string>, parsed: Parsed)
    ensures var roles, a := Roles(userInfoStr, parsed), GetAccess(userInfoStr, parsed);
            && (ManagesAllButUsers(a) <==> "admin" in roles || "operator" in roles)
            && (!("admin" in roles || "operator" in roles) ==>
                  !a.canManageShop && !a.canManageSupplier && !a.canManageBrand && !a.canManageCategory
                  && !a.canManagePurchase && !a.canManageBid && !a.canManageOrder)
  {
  }

  /** Nothing stored (or an empty text), malformed JSON, `null` or no roles: every role and permission flag is false. */
  lemma NoRolesNoAccess(userInfoStr: Option<string>, parsed: Parsed)
    requires userInfoStr.None? || userInfoStr.value == "" || parsed.Malformed? || parsed.NotAnObject?
             || (parsed.UserObject? && parsed.roles.None?)
    ensures Roles(userInfoStr, parsed) == []
    ensures NoRoleFlags(GetAccess(userInfoStr, parsed))
  {
  }

  /** A malformed stored text still counts as being logged in, with no permissions. */
  lemma MalformedIsLoggedInWithoutRoles(userInfoStr: string)
    requires userInfoStr != ""
    ensures GetAccess(Some(userInfoStr), Malformed).isLogin
    ensures NoRoleFlags(GetAccess(Some(userInfoStr), Malformed))
  {
  }

  /** An admin has every flag. */
  lemma AdminHasEverything(userInfoStr: Option<string>, parsed: Parsed)
    requires "admin" in Roles(userInfoStr, parsed)
    ensures var a := GetAccess(userInfoStr, parsed);
            && a.isLogin && a.isAdmin && a.isOperator && a.isAnalyst && a.canManageUser && ManagesAllButUsers(a)
  {
  }

  /** An operator who is not an admin manages everything but users. */
  lemma OperatorManagesAllButUsers(userInfoStr: Option<string>, parsed: Parsed)
    requires "operator" in Roles(userInfoStr, parsed) && "admin" !in Roles(userInfoStr, parsed)
    ensures var a := GetAccess(userInfoStr, parsed);
            && a.isOperator && !a.isAdmin && !a.canManageUser && ManagesAllButUsers(a)
  {
  }

  /** A user whose only role is analyst sees the analyst flag and may manage nothing. */
  lemma AnalystOnlyManagesNothing(userInfoStr: string)
    requires userInfoStr != ""
    ensures var a := GetAccess(Some(userInfoStr), UserObject(Some(["analyst"])));
            && a.isLogin && a.isAnalyst && !a.isAdmin && !a.isOperator && ManagesNothing(a)
  {
    assert "admin" !in ["analyst"] && "operator" !in ["analyst"];
  }

  /** The flags form a hierarchy: user management implies every other flag. */
  lemma FlagHierarchy(userInfoStr: Option<string>, parsed: Parsed)
    ensures var a := GetAccess(userInfoStr, parsed);
            && (a.canManageUser <==> a.isAdmin)
            && (a.isAdmin ==> a.isOperator && a.isAnalyst && ManagesAllButUsers(a))
            && (a.canManageShop ==> a.isOperator && a.isLogin)
            && (a.isAnalyst || a.isOperator ==> a.isLogin)
  {
  }
}

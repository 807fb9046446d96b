/**
 * The supplier portal's session store (productor_PC/src/stores/user.ts): the
 * token, the signed-in user and the count of failed logins that decides when a
 * captcha is required. Values read from local storage at start-up are
 * constructor parameters; writes to storage and the notification-permission
 * request are not part of this model. `Login` and `Logout` take the state
 * change that follows the API call, with the API's answer as a parameter.
 */
module UserStore {
  import opened Wrappers
  import opened Text
  import opened SupplierTypes
  import SupplierMock

  /** Failed logins from which on a captcha is required. */
  const CaptchaThreshold := 5

  /** What `login` returns to its caller. */
  datatype LoginOutcome = LoggedIn | LoginFailed(message: string)

  /** A `Partial<User>`: each present field overrides the stored one. */
  datatype UserPatch = UserPatch(
    id: Option<string>,
    username: Option<string>,
    email: Option<string>,
    phone: Option<string>,
    companyName: Option<string>,
    role: Option<Role>,
    avatar: Option<string>)

  /** `{ ...u, ...patch }` */
  function Merge(u: User, patch: UserPatch): (r: User)
    ensures patch == UserPatch(None, None, None, None, None, None, None) ==> r == u
    ensures r.id == (if patch.id.Some? then patch.id.value else u.id)
    ensures r.username == (if patch.username.Some? then patch.username.value else u.username)
    ensures r.email == patch.email.GetOr(u.email)
    ensures r.phone == patch.phone.GetOr(u.phone)
    ensures r.companyName == patch.companyName.GetOr(u.companyName)
    ensures r.role == (if patch.role.Some? then patch.role.value else u.role)
    ensures patch.avatar.Some? ==> r.avatar == patch.avatar
    ensures patch.avatar.None? ==> r.avatar == u.avatar
  {
    User(patch.id.GetOr(u.id), patch.username.GetOr(u.username), patch.email.GetOr(u.email),
         patch.phone.GetOr(u.phone), patch.companyName.GetOr(u.companyName), patch.role.GetOr(u.role),
         if patch.avatar.Some? then patch.avatar else u.avatar)
  }

  /** Applying the same patch twice is the same as applying it once. */
  lemma MergeIdempotent(u: User, patch: UserPatch)
    ensures Merge(Merge(u, patch), patch) == Merge(u, patch)
  {
  }

  /** `{ ...p, ...q }` on two patches: a field of `q` wins over the same field of `p`. */
  function Combine(p: UserPatch, q: UserPatch): UserPatch {
    UserPatch(if q.id.Some? then q.id else p.id,
              if q.username.Some? then q.username else p.username,
              if q.email.Some? then q.email else p.email,
              if q.phone.Some? then q.phone else p.phone,
              if q.companyName.Some? then q.companyName else p.companyName,
              if q.role.Some? then q.role else p.role,
              if q.avatar.Some? then q.avatar else p.avatar)
  }

  /** Two updates in a row are one update with the patches combined, the later one winning. */
  lemma MergeCompose(u: User, p: UserPatch, q: UserPatch)
    ensures Merge(Merge(u, p), q) == Merge(u, Combine(p, q))
  {
  }

  class UserStore {
    var token: Option<string>
    var userInfo: Option<User>
    var loginFailCount: nat

    /** `isLoggedIn`: a non-empty token and a user. */
    predicate IsLoggedIn()
      reads this
    {
      token.Some? && token.value != "" && userInfo.Some?
    }

    /** `needCaptcha` */
    predicate NeedCaptcha()
      reads this
    {
      loginFailCount >= CaptchaThreshold
    }

    /** The store as created: token and user as found in storage, no failed logins yet. */
    constructor (storedToken: Option<string>, storedUser: Option<User>)
      ensures token == storedToken && userInfo == storedUser && loginFailCount == 0
      ensures !NeedCaptcha()
    {
      token, userInfo, loginFailCount := storedToken, storedUser, 0;
    }

    /**
     * `login` after the API answered: an answer with code 0 and data signs the
     * user in and clears the failure count; any other answer counts one more
     * failure and keeps the session as it was.
     */
    method Login(res: ApiResponse<SupplierMock.LoginData>) returns (outcome: LoginOutcome)
      modifies this
      ensures res.code == 0 && res.data.Some? ==>
                && outcome == LoggedIn
                && token == Some(res.data.value.token) && userInfo == Some(res.data.value.userInfo)
                && loginFailCount == 0 && !NeedCaptcha()
      ensures !(res.code == 0 && res.data.Some?) ==>
                && outcome == LoginFailed(res.msg)
                && token == old(token) && userInfo == old(userInfo)
                && loginFailCount == old(loginFailCount) + 1
    {
      if res.code == 0 && res.data.Some? {
        token := Some(res.data.value.token);
        userInfo := Some(res.data.value.userInfo);
        loginFailCount := 0;
        return LoggedIn;
      }
      loginFailCount := loginFailCount + 1;
      return LoginFailed(res.msg);
    }

    /** `logout`: whatever the API call did, the session is gone afterwards; the failure count stays. */
    method Logout()
      modifies this
      ensures token.None? && userInfo.None? && loginFailCount == old(loginFailCount)
      ensures !IsLoggedIn()
    {
      token := None;
      userInfo := None;
    }

    /** `updateUserInfo`: merge into a signed-in user; without one nothing happens. */
    method UpdateUserInfo(patch: UserPatch)
      modifies this
      ensures old(userInfo).Some? ==> userInfo == Some(Merge(old(userInfo).value, patch))
      ensures old(userInfo).None? ==> userInfo.None?
      ensures token == old(token) && loginFailCount == old(loginFailCount)
      ensures IsLoggedIn() == old(IsLoggedIn())
    {
      if userInfo.Some? {
        userInfo := Some(Merge(userInfo.value, patch));
      }
    }
  }

  /**
   * Against the mock back-end: `n` attempts with a wrong password leave the
   * session as it was and count `n` failures, so the captcha is required
   * exactly from the fifth; the right credentials then sign in and clear the
   * count.
   */
  method FailuresThenSuccess(n: nat, wrongPassword: string, now: nat)
    returns (failures: nat, captchaBefore: bool, loggedIn: bool, captchaAfter: bool)
    requires wrongPassword != "123456"
    ensures failures == n && (captchaBefore <==> n >= CaptchaThreshold)
    ensures loggedIn && !captchaAfter
  {
    var store := new UserStore(None, None);
    var i := 0;
    while i < n
      invariant i <= n
      invariant store.loginFailCount == i && store.token.None?
    {
      var outcome := store.Login(SupplierMock.Login("admin", wrongPassword, now));
      i := i + 1;
    }
    failures, captchaBefore := store.loginFailCount, store.NeedCaptcha();
    var outcome := store.Login(SupplierMock.Login("admin", "123456", now));
    assert StartsWith(store.token.value, "mock_token_");
    loggedIn, captchaAfter := store.IsLoggedIn(), store.NeedCaptcha();
  }
}

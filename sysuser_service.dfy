/** The system user service: platform operators and their passwords. */
module SysUserService {
  import opened Records
  import opened Repository
  import opened Accounts

  class SysUserBaseService {
    const daoSysUser: Dao
    /** `utils.SHA`. */
    const sha: string -> string
    /** The store's credential lookup (`SysUserDao.Authenticate`) over the
        key, the login and the hashed password. */
    const credentials: (string, string, string) -> Option<Record>

    predicate Valid() {
      daoSysUser.keyField == SYS_USER_ID
    }

    constructor (daoSysUser: Dao, sha: string -> string, credentials: (string, string, string) -> Option<Record>)
      requires daoSysUser.keyField == SYS_USER_ID
      ensures Valid() && this.daoSysUser == daoSysUser && this.sha == sha && this.credentials == credentials
    {
      this.daoSysUser := daoSysUser;
      this.sha := sha;
      this.credentials := credentials;
    }

    /** Create: the user id is lower-cased, or generated as "syusr_" and
        `guid` (the fresh `xid`); the password, when given, is stored hashed. */
    method Create(indata: Record, guid: string) returns (data: Record, err: Option<Error>, indata': Record)
      requires Valid()
      requires StrIfPresent(indata, SYS_USER_ID) && StrIfPresent(indata, SYS_USER_PASSWORD)
      modifies daoSysUser
      ensures var id := NewId(indata, SYS_USER_ID, "syusr_" + guid);
        && indata' == HashIfPresent(indata[SYS_USER_ID := Str(id)], SYS_USER_PASSWORD, sha)
        && (id in old(daoSysUser.rows) ==>
              data == map[] && err == Some(Duplicate(SYS_USER_ID, id)) && daoSysUser.rows == old(daoSysUser.rows))
        && (id !in old(daoSysUser.rows) ==>
              data == indata' && err.None? && daoSysUser.rows == old(daoSysUser.rows)[id := indata'])
      ensures old(KeysAgree(daoSysUser.rows, SYS_USER_ID)) ==> KeysAgree(daoSysUser.rows, SYS_USER_ID)
    {
      var userId := NewId(indata, SYS_USER_ID, "syusr_" + guid);
      indata' := indata[SYS_USER_ID := Str(userId)];
      indata' := HashIfPresent(indata', SYS_USER_PASSWORD, sha);
      var created := daoSysUser.Create(indata');
      match created
      case Err(e) => data, err := map[], Some(e);
      case Ok(r) => data, err := r, None;
    }

    /** Update: the user id is deleted from the request; unlike the app user
        service, a password in the request is passed to the store as given. */
    method Update(userId: string, indata: Record) returns (data: Record, err: Option<Error>, indata': Record)
      requires Valid()
      modifies daoSysUser
      ensures indata' == Strip(indata, {SYS_USER_ID})
      ensures SYS_USER_PASSWORD in indata ==> indata'[SYS_USER_PASSWORD] == indata[SYS_USER_PASSWORD]
      ensures userId in old(daoSysUser.rows) ==>
                && err.None? && data == old(daoSysUser.rows)[userId] + indata'
                && daoSysUser.rows == old(daoSysUser.rows)[userId := data]
      ensures userId !in old(daoSysUser.rows) ==>
                err == Some(NotFound(SYS_USER_ID, userId)) && data == map[]
                && daoSysUser.rows == old(daoSysUser.rows)
      ensures FieldsKept(old(daoSysUser.rows), daoSysUser.rows, {SYS_USER_ID})
      ensures old(KeysAgree(daoSysUser.rows, SYS_USER_ID)) ==> KeysAgree(daoSysUser.rows, SYS_USER_ID)
    {
      indata' := Strip(indata, {SYS_USER_ID});
      if userId in daoSysUser.rows {
        MergeKeepsFields(daoSysUser.rows, userId, indata', {SYS_USER_ID}, SYS_USER_ID);
      }
      var updated := daoSysUser.Update(userId, indata');
      match updated
      case Err(e) => data, err := map[], Some(e);
      case Ok(r) => data, err := r, None;
    }

    /** Delete: a permanent delete removes the user; any other is an Update
        carrying only `is_deleted = true`. Neither checks existence first: an
        unknown user is the store's error. */
    method Delete(userId: string, deletePermanent: bool) returns (err: Option<Error>)
      requires Valid()
      modifies daoSysUser
      ensures userId !in old(daoSysUser.rows) ==>
                err == Some(NotFound(SYS_USER_ID, userId)) && daoSysUser.rows == old(daoSysUser.rows)
      ensures userId in old(daoSysUser.rows) ==>
                && err.None?
                && daoSysUser.rows == if deletePermanent then old(daoSysUser.rows) - {userId}
                                      else old(daoSysUser.rows)[userId := old(daoSysUser.rows)[userId][IS_DELETED := Bool(true)]]
    {
      if deletePermanent {
        var removed := daoSysUser.Delete(userId);
        match removed
        case Err(e) => err := Some(e);
        case Ok(_) => err := None;
      } else {
        var flag: Record := map[IS_DELETED := Bool(true)];
        assert Strip(flag, {SYS_USER_ID}) == flag;
        if userId in daoSysUser.rows {
          assert daoSysUser.rows[userId] + flag == daoSysUser.rows[userId][IS_DELETED := Bool(true)];
        }
        var _, updateErr, _ := Update(userId, flag);
        err := updateErr;
      }
    }

    /** Authenticate: the password is hashed before the lookup; a user that is
        not found is refused, and so is one whose `is_suspended` is true. */
    method Authenticate(authKey: string, authLogin: string, authPwd: string) returns (data: Record, err: Option<Error>)
      requires Valid()
      ensures var found := credentials(authKey, authLogin, sha(authPwd));
        && (found.None? ==> data == map[] && err == Some(ErrWrongCredentials))
        && (found.Some? && GetBool(found.value, IS_SUSPENDED) == Some(true) ==>
              data == map[] && err == Some(ErrUserSuspended))
        && (err.None? <==> found.Some? && GetBool(found.value, IS_SUSPENDED) != Some(true))
        && (err.None? ==> data == found.value)
    {
      var encPwd := sha(authPwd);
      var login := UserLogin(credentials(authKey, authLogin, encPwd));
      match login
      case Err(e) => data, err := map[], Some(e);
      case Ok(user) => data, err := user, None;
    }

    /** ChangePassword: the store update carries the hashed password and
        nothing else. */
    method ChangePassword(userId: string, newPwd: string) returns (data: Record, err: Option<Error>)
      requires Valid()
      modifies daoSysUser
      ensures userId in old(daoSysUser.rows) ==>
                && err.None? && data == old(daoSysUser.rows)[userId][SYS_USER_PASSWORD := Str(sha(newPwd))]
                && daoSysUser.rows == old(daoSysUser.rows)[userId := data]
      ensures userId !in old(daoSysUser.rows) ==>
                err == Some(NotFound(SYS_USER_ID, userId)) && data == map[]
                && daoSysUser.rows == old(daoSysUser.rows)
    {
      var patch: Record := map[SYS_USER_PASSWORD := Str(sha(newPwd))];
      if userId in daoSysUser.rows {
        assert daoSysUser.rows[userId] + patch == daoSysUser.rows[userId][SYS_USER_PASSWORD := Str(sha(newPwd))];
      }
      var updated := daoSysUser.Update(userId, patch);
      match updated
      case Err(e) => data, err := map[], Some(e);
      case Ok(r) => data, err := r, None;
    }
  }
}

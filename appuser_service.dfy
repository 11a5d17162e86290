/** The app user service: application users, their passwords, and the
    businesses they belong to. */
module AppUserService {
  import opened Records
  import opened Repository
  import opened Accounts

  /** One entry of a user's business listing, with the business record
      attached under `app_business` when the business can be read. */
  function Enrich(entry: Record, businesses: map<string, Record>): (r: Record)
    requires GetStr(entry, BUSINESS_ID).Some?
    ensures entry[BUSINESS_ID].s in businesses ==>
              r == entry[APP_BUSINESS := Rec(businesses[entry[BUSINESS_ID].s])]
    ensures entry[BUSINESS_ID].s !in businesses ==> r == entry
  {
    var id := entry[BUSINESS_ID].s;
    if id in businesses then entry[APP_BUSINESS := Rec(businesses[id])] else entry
  }

  predicate Listable(entries: seq<Record>) {
    forall i :: 0 <= i < |entries| ==> GetStr(entries[i], BUSINESS_ID).Some?
  }

  /** The listing with every entry enriched, in the same order. */
  function Enriched(entries: seq<Record>, businesses: map<string, Record>): (r: seq<Record>)
    requires Listable(entries)
    ensures |r| == |entries|
    ensures forall i :: 0 <= i < |entries| ==> r[i] == Enrich(entries[i], businesses)
  {
    if entries == [] then []
    else Enriched(entries[..|entries| - 1], businesses) + [Enrich(entries[|entries| - 1], businesses)]
  }

  /** Enriching keeps every entry's business id and every other member it had. */
  lemma EnrichedKeepsEntries(entries: seq<Record>, businesses: map<string, Record>, i: int)
    requires Listable(entries) && 0 <= i < |entries|
    ensures var e := Enriched(entries, businesses)[i];
      && entries[i].Keys <= e.Keys && e.Keys <= entries[i].Keys + {APP_BUSINESS}
      && e[BUSINESS_ID] == entries[i][BUSINESS_ID]
      && (forall k :: k in entries[i] && k != APP_BUSINESS ==> e[k] == entries[i][k])
  {
  }

  class AppUserBaseService {
    const daoAppUser: Dao
    const daoBusiness: Dao
    /** `utils.SHA`. */
    const sha: string -> string
    /** The store's credential lookup (`AppUserDao.Authenticate`) over the
        key, the login and the hashed password. */
    const credentials: (string, string, string) -> Option<Record>
    /** The store's listing of a user's businesses (`AppUserDao.BusinessList`)
        for a filter, a sort, a skip and a limit. */
    const businessList: (string, string, string, int, int) -> Result<seq<Record>>

    predicate Valid() {
      && daoAppUser.keyField == APP_USER_ID && daoBusiness.keyField == BUSINESS_ID
      && daoAppUser != daoBusiness
    }

    constructor (daoAppUser: Dao, daoBusiness: Dao, sha: string -> string,
                 credentials: (string, string, string) -> Option<Record>,
                 businessList: (string, string, string, int, int) -> Result<seq<Record>>)
      requires daoAppUser.keyField == APP_USER_ID && daoBusiness.keyField == BUSINESS_ID
      requires daoAppUser != daoBusiness
      ensures Valid() && this.daoAppUser == daoAppUser && this.daoBusiness == daoBusiness
      ensures this.sha == sha && this.credentials == credentials && this.businessList == businessList
    {
      this.daoAppUser := daoAppUser;
      this.daoBusiness := daoBusiness;
      this.sha := sha;
      this.credentials := credentials;
      this.businessList := businessList;
    }

    /** Create: the user id is lower-cased, or generated as "user_" and
        `guid` (the fresh `xid`); the password, when given, is stored hashed. */
    method Create(indata: Record, guid: string) returns (data: Record, err: Option<Error>, indata': Record)
      requires Valid()
      requires StrIfPresent(indata, APP_USER_ID) && StrIfPresent(indata, APP_USER_PASSWORD)
      modifies daoAppUser
      ensures var id := NewId(indata, APP_USER_ID, "user_" + guid);
        && indata' == HashIfPresent(indata[APP_USER_ID := Str(id)], APP_USER_PASSWORD, sha)
        && (id in old(daoAppUser.rows) ==>
              data == map[] && err == Some(Duplicate(APP_USER_ID, id)) && daoAppUser.rows == old(daoAppUser.rows))
        && (id !in old(daoAppUser.rows) ==>
              data == indata' && err.None? && daoAppUser.rows == old(daoAppUser.rows)[id := indata'])
      ensures old(KeysAgree(daoAppUser.rows, APP_USER_ID)) ==> KeysAgree(daoAppUser.rows, APP_USER_ID)
    {
      var userId := NewId(indata, APP_USER_ID, "user_" + guid);
      indata' := indata[APP_USER_ID := Str(userId)];
      indata' := HashIfPresent(indata', APP_USER_PASSWORD, sha);
      var created := daoAppUser.Create(indata');
      match created
      case Err(e) => data, err := map[], Some(e);
      case Ok(r) => data, err := r, None;
    }

    /** Update: the user id is deleted from the request and a given password
        is hashed before the store update. */
    method Update(userId: string, indata: Record) returns (data: Record, err: Option<Error>, indata': Record)
      requires Valid()
      requires StrIfPresent(indata, APP_USER_PASSWORD)
      modifies daoAppUser
      ensures indata' == HashIfPresent(Strip(indata, {APP_USER_ID}), APP_USER_PASSWORD, sha)
      ensures userId in old(daoAppUser.rows) ==>
                && err.None? && data == old(daoAppUser.rows)[userId] + indata'
                && daoAppUser.rows == old(daoAppUser.rows)[userId := data]
      ensures userId !in old(daoAppUser.rows) ==>
                err == Some(NotFound(APP_USER_ID, userId)) && data == map[]
                && daoAppUser.rows == old(daoAppUser.rows)
      ensures FieldsKept(old(daoAppUser.rows), daoAppUser.rows, {APP_USER_ID})
      ensures old(KeysAgree(daoAppUser.rows, APP_USER_ID)) ==> KeysAgree(daoAppUser.rows, APP_USER_ID)
    {
      indata' := Strip(indata, {APP_USER_ID});
      indata' := HashIfPresent(indata', APP_USER_PASSWORD, sha);
      if userId in daoAppUser.rows {
        MergeKeepsFields(daoAppUser.rows, userId, indata', {APP_USER_ID}, APP_USER_ID);
      }
      var updated := daoAppUser.Update(userId, indata');
      match updated
      case Err(e) => data, err := map[], Some(e);
      case Ok(r) => data, err := r, None;
    }

    /** Delete: a permanent delete removes the user; any other is an Update
        carrying only `is_deleted = true`. Neither checks existence first: an
        unknown user is the store's error. */
    method Delete(userId: string, deletePermanent: bool) returns (err: Option<Error>)
      requires Valid()
      modifies daoAppUser
      ensures userId !in old(daoAppUser.rows) ==>
                err == Some(NotFound(APP_USER_ID, userId)) && daoAppUser.rows == old(daoAppUser.rows)
      ensures userId in old(daoAppUser.rows) ==>
                && err.None?
                && daoAppUser.rows == if deletePermanent then old(daoAppUser.rows) - {userId}
                                      else old(daoAppUser.rows)[userId := old(daoAppUser.rows)[userId][IS_DELETED := Bool(true)]]
    {
      if deletePermanent {
        var removed := daoAppUser.Delete(userId);
        match removed
        case Err(e) => err := Some(e);
        case Ok(_) => err := None;
      } else {
        var flag: Record := map[IS_DELETED := Bool(true)];
        assert HashIfPresent(Strip(flag, {APP_USER_ID}), APP_USER_PASSWORD, sha) == flag;
        if userId in daoAppUser.rows {
          assert daoAppUser.rows[userId] + flag == daoAppUser.rows[userId][IS_DELETED := Bool(true)];
        }
        var _, updateErr, _ := Update(userId, flag);
        err := updateErr;
      }
    }

    /** Authenticate: the password is hashed before the lookup; a user that is
        not found is refused, and so is one whose `is_suspended` is true. */
    method Authenticate(authKey: string, authLogin: string, authPwd: string) returns (data: Record, err: Option<Error>)
      requires Valid()
      ensures var found := credentials(authKey, authLogin, sha(authPwd));
        && (found.None? ==> data == map[] && err == Some(ErrWrongCredentials))
        && (found.Some? && GetBool(found.value, IS_SUSPENDED) == Some(true) ==>
              data == map[] && err == Some(ErrUserSuspended))
        && (err.None? <==> found.Some? && GetBool(found.value, IS_SUSPENDED) != Some(true))
        && (err.None? ==> data == found.value)
    {
      var encPwd := sha(authPwd);
      var login := UserLogin(credentials(authKey, authLogin, encPwd));
      match login
      case Err(e) => data, err := map[], Some(e);
      case Ok(user) => data, err := user, None;
    }

    /** ChangePassword: the store update carries the hashed password and
        nothing else. */
    method ChangePassword(userId: string, newPwd: string) returns (data: Record, err: Option<Error>)
      requires Valid()
      modifies daoAppUser
      ensures userId in old(daoAppUser.rows) ==>
                && err.None? && data == old(daoAppUser.rows)[userId][APP_USER_PASSWORD := Str(sha(newPwd))]
                && daoAppUser.rows == old(daoAppUser.rows)[userId := data]
      ensures userId !in old(daoAppUser.rows) ==>
                err == Some(NotFound(APP_USER_ID, userId)) && data == map[]
                && daoAppUser.rows == old(daoAppUser.rows)
    {
      var patch: Record := map[APP_USER_PASSWORD := Str(sha(newPwd))];
      if userId in daoAppUser.rows {
        assert daoAppUser.rows[userId] + patch == daoAppUser.rows[userId][APP_USER_PASSWORD := Str(sha(newPwd))];
      }
      var updated := daoAppUser.Update(userId, patch);
      match updated
      case Err(e) => data, err := map[], Some(e);
      case Ok(r) => data, err := r, None;
    }

    /** BusinessList: the user must exist; each listed entry whose business
        can be read gets the business record attached, the others stay as
        listed. Every entry of a known user's listing must carry its business
        id as a string. */
    method BusinessList(userId: string, filter: string, sort: string, skip: int, limit: int)
        returns (data: seq<Record>, err: Option<Error>)
      requires Valid()
      requires userId in daoAppUser.rows && businessList(userId, filter, sort, skip, limit).Ok? ==>
                 Listable(businessList(userId, filter, sort, skip, limit).value)
      ensures userId !in daoAppUser.rows ==> data == [] && err == Some(NotFound(APP_USER_ID, userId))
      ensures userId in daoAppUser.rows ==>
                match businessList(userId, filter, sort, skip, limit)
                case Err(e) => data == [] && err == Some(e)
                case Ok(entries) => data == Enriched(entries, daoBusiness.rows) && err.None?
    {
      if daoAppUser.Get(userId).Err? {
        return [], Some(NotFound(APP_USER_ID, userId));
      }
      var listed := businessList(userId, filter, sort, skip, limit);
      if listed.Err? {
        return [], Some(listed.error);
      }
      var entries := listed.value;
      data := [];
      var i := 0;
      while i < |entries|
        invariant 0 <= i <= |entries|
        invariant data == Enriched(entries[..i], daoBusiness.rows)
      {
        var value := entries[i];
        var business := daoBusiness.Get(value[BUSINESS_ID].s);
        if business.Ok? {
          value := value[APP_BUSINESS := Rec(business.value)];
        }
        assert entries[..i + 1][..i] == entries[..i];
        data := data + [value];
        i := i + 1;
      }
      assert entries[..|entries|] == entries;
      err := None;
    }
  }
}

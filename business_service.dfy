/** The business (tenant) service: creating, updating and deleting businesses,
    and granting app users access to a business. */
module BusinessService {
  import opened Records
  import opened Repository

  const ErrBusinessExists := Coded("S3030201", "Invalid Business id !", "Business ID given is already exist")
  const ErrRegionMissing := Coded("S3030202", "Business region missing!", "Business Region should be specified!")
  const ErrRegionInvalid := Coded("S3030203", "Invalid Business region !", "Business Region given is invalid")
  const ErrBusinessNotFound := AppError(400, "", "Bad Request", "BusinessId not found")

  /** The fields Update never passes to the store. */
  const KeyFields: set<string> := {BUSINESS_ID, BUSINESS_REGION_ID, BUSINESS_IS_TENANT_DB}

  class BusinessBaseService {
    const daoBusiness: Dao
    const daoAppUser: Dao
    const daoAppRegion: Dao
    /** The business-user access records (reached through the business DAO in the source). */
    const daoBusinessUser: Dao
    /** `utils.GetMD5Hash`. */
    const md5: string -> string

    predicate Valid() {
      && daoBusiness.keyField == BUSINESS_ID
      && daoAppUser.keyField == APP_USER_ID
      && daoAppRegion.keyField == REGION_ID
      && daoBusinessUser.keyField == BUSINESS_USER_ID
      && daoBusiness != daoAppUser && daoBusiness != daoAppRegion && daoBusiness != daoBusinessUser
      && daoBusinessUser != daoAppUser && daoBusinessUser != daoAppRegion
    }

    constructor (daoBusiness: Dao, daoAppUser: Dao, daoAppRegion: Dao, daoBusinessUser: Dao, md5: string -> string)
      requires daoBusiness.keyField == BUSINESS_ID && daoAppUser.keyField == APP_USER_ID
      requires daoAppRegion.keyField == REGION_ID && daoBusinessUser.keyField == BUSINESS_USER_ID
      requires daoBusiness != daoAppUser && daoBusiness != daoAppRegion && daoBusiness != daoBusinessUser
      requires daoBusinessUser != daoAppUser && daoBusinessUser != daoAppRegion
      ensures Valid()
      ensures this.daoBusiness == daoBusiness && this.daoAppUser == daoAppUser
      ensures this.daoAppRegion == daoAppRegion && this.daoBusinessUser == daoBusinessUser && this.md5 == md5
    {
      this.daoBusiness := daoBusiness;
      this.daoAppUser := daoAppUser;
      this.daoAppRegion := daoAppRegion;
      this.daoBusinessUser := daoBusinessUser;
      this.md5 := md5;
    }

    /** The key of the access record of a user in a business. */
    function AccessId(businessId: string, userId: string): string {
      md5(businessId + "_" + userId)
    }

    function AccessRecord(businessId: string, userId: string): Record {
      map[BUSINESS_USER_ID := Str(AccessId(businessId, userId)), BUSINESS_ID := Str(businessId),
          APP_USER_ID := Str(userId), IS_DELETED := Bool(true)]
    }

    /** Create: normalises the business id (`guid` is the fresh `xid`), then
        refuses an existing id, a missing region and an unknown region, in that
        order; only then does the store insert. The region id is read as a
        string only once the id is known to be new. */
    method Create(indata: Record, guid: string) returns (data: Record, err: Option<Error>, indata': Record)
      requires Valid()
      requires StrIfPresent(indata, BUSINESS_ID)
      requires NewId(indata, BUSINESS_ID, "biz_" + guid) !in daoBusiness.rows ==> StrIfPresent(indata, BUSINESS_REGION_ID)
      modifies daoBusiness
      ensures var id := NewId(indata, BUSINESS_ID, "biz_" + guid);
        && indata' == indata[BUSINESS_ID := Str(id)]
        && data == indata'
        && (id in old(daoBusiness.rows) ==> err == Some(ErrBusinessExists))
        && (id !in old(daoBusiness.rows) && BUSINESS_REGION_ID !in indata ==> err == Some(ErrRegionMissing))
        && ((id !in old(daoBusiness.rows) && BUSINESS_REGION_ID in indata
               && indata[BUSINESS_REGION_ID].s !in daoAppRegion.rows) ==> err == Some(ErrRegionInvalid))
        && (err.None? <==> id !in old(daoBusiness.rows) && BUSINESS_REGION_ID in indata
                           && indata[BUSINESS_REGION_ID].s in daoAppRegion.rows)
        && daoBusiness.rows == if err.None? then old(daoBusiness.rows)[id := indata'] else old(daoBusiness.rows)
      ensures old(KeysAgree(daoBusiness.rows, BUSINESS_ID)) ==> KeysAgree(daoBusiness.rows, BUSINESS_ID)
    {
      var businessId := NewId(indata, BUSINESS_ID, "biz_" + guid);
      indata' := indata[BUSINESS_ID := Str(businessId)];
      data := indata';

      if daoBusiness.Get(businessId).Ok? {
        return data, Some(ErrBusinessExists), indata';
      }
      if BUSINESS_REGION_ID !in indata' {
        return data, Some(ErrRegionMissing), indata';
      }
      if daoAppRegion.Get(indata'[BUSINESS_REGION_ID].s).Err? {
        return data, Some(ErrRegionInvalid), indata';
      }
      var created := daoBusiness.Create(indata');
      match created
      case Err(e) => err := Some(e);
      case Ok(r) => data, err := r, None;
    }

    /** Update: the id, the region and the tenant-database flag are deleted
        from the request before the store update, so no Update changes them. */
    method Update(businessId: string, indata: Record) returns (data: Record, err: Option<Error>, indata': Record)
      requires Valid()
      modifies daoBusiness
      ensures indata' == Strip(indata, KeyFields)
      ensures businessId in old(daoBusiness.rows) ==>
                && err.None? && data == old(daoBusiness.rows)[businessId] + indata'
                && daoBusiness.rows == old(daoBusiness.rows)[businessId := data]
      ensures businessId !in old(daoBusiness.rows) ==>
                err == Some(NotFound(BUSINESS_ID, businessId)) && data == map[] && daoBusiness.rows == old(daoBusiness.rows)
      ensures FieldsKept(old(daoBusiness.rows), daoBusiness.rows, KeyFields)
      ensures old(KeysAgree(daoBusiness.rows, BUSINESS_ID)) ==> KeysAgree(daoBusiness.rows, BUSINESS_ID)
    {
      indata' := Strip(indata, KeyFields);
      if businessId in daoBusiness.rows {
        MergeKeepsFields(daoBusiness.rows, businessId, indata', KeyFields, BUSINESS_ID);
      }
      var updated := daoBusiness.Update(businessId, indata');
      match updated
      case Err(e) => data, err := map[], Some(e);
      case Ok(r) => data, err := r, None;
    }

    /** validateKeyExist. */
    method ValidateKeyExist(key: string) returns (data: Record, err: Option<Error>)
      requires Valid()
      ensures key in daoBusiness.rows ==> err.None? && data == daoBusiness.rows[key]
      ensures key !in daoBusiness.rows ==> err == Some(ErrBusinessNotFound) && data == map[]
    {
      var found := daoBusiness.Get(key);
      if found.Err? {
        return map[], Some(ErrBusinessNotFound);
      }
      return found.value, None;
    }

    /** Delete: refuses an unknown business; a permanent delete removes the
        record, any other is an Update carrying only `is_deleted = true`. */
    method Delete(businessId: string, deletePermanent: bool) returns (err: Option<Error>)
      requires Valid()
      modifies daoBusiness
      ensures businessId !in old(daoBusiness.rows) ==>
                err == Some(ErrBusinessNotFound) && daoBusiness.rows == old(daoBusiness.rows)
      ensures businessId in old(daoBusiness.rows) ==>
                && err.None?
                && daoBusiness.rows == if deletePermanent then old(daoBusiness.rows) - {businessId}
                                    else old(daoBusiness.rows)[businessId := old(daoBusiness.rows)[businessId][IS_DELETED := Bool(true)]]
    {
      var _, checked := ValidateKeyExist(businessId);
      if checked.Some? {
        return checked;
      }
      if deletePermanent {
        var result := daoBusiness.Delete(businessId);
        match result
        case Err(e) => err := Some(e);
        case Ok(_) => err := None;
      } else {
        var flag: Record := map[IS_DELETED := Bool(true)];
        assert old(daoBusiness.rows)[businessId] + Strip(flag, KeyFields)
            == old(daoBusiness.rows)[businessId][IS_DELETED := Bool(true)];
        var _, updateErr, _ := Update(businessId, flag);
        err := updateErr;
      }
    }

    /** AddUser: both the business and the user must exist; the access record
        is stored under the key derived from the pair, with `is_deleted` set. */
    method AddUser(businessId: string, userId: string) returns (data: Record, err: Option<Error>)
      requires Valid()
      modifies daoBusinessUser
      ensures businessId !in daoBusiness.rows ==>
                err == Some(NotFound(BUSINESS_ID, businessId)) && daoBusinessUser.rows == old(daoBusinessUser.rows)
      ensures businessId in daoBusiness.rows && userId !in daoAppUser.rows ==>
                err == Some(NotFound(APP_USER_ID, userId)) && daoBusinessUser.rows == old(daoBusinessUser.rows)
      ensures businessId in daoBusiness.rows && userId in daoAppUser.rows ==>
                var key := AccessId(businessId, userId);
                if key in old(daoBusinessUser.rows) then
                  err == Some(Duplicate(BUSINESS_USER_ID, key)) && daoBusinessUser.rows == old(daoBusinessUser.rows)
                else
                  err.None? && data == AccessRecord(businessId, userId)
                  && daoBusinessUser.rows == old(daoBusinessUser.rows)[key := data]
    {
      var business := daoBusiness.Get(businessId);
      if business.Err? {
        return map[], Some(business.error);
      }
      var user := daoAppUser.Get(userId);
      if user.Err? {
        return map[], Some(user.error);
      }
      var created := daoBusinessUser.Create(AccessRecord(businessId, userId));
      match created
      case Err(e) => data, err := map[], Some(e);
      case Ok(r) => data, err := r, None;
    }

    /** RemoveUser: removes the access record under the same derived key. The
        store's response string is modelled as the removed key. */
    method RemoveUser(businessId: string, userId: string) returns (response: string, err: Option<Error>)
      requires Valid()
      modifies daoBusinessUser
      ensures var key := AccessId(businessId, userId);
        && (err.None? <==> businessId in daoBusiness.rows && userId in daoAppUser.rows && key in old(daoBusinessUser.rows))
        && (businessId !in daoBusiness.rows ==> err == Some(NotFound(BUSINESS_ID, businessId)))
        && (businessId in daoBusiness.rows && userId !in daoAppUser.rows ==> err == Some(NotFound(APP_USER_ID, userId)))
        && (err.None? ==> response == key && daoBusinessUser.rows == old(daoBusinessUser.rows) - {key})
        && (err.Some? ==> response == "" && daoBusinessUser.rows == old(daoBusinessUser.rows))
    {
      var business := daoBusiness.Get(businessId);
      if business.Err? {
        return "", Some(business.error);
      }
      var user := daoAppUser.Get(userId);
      if user.Err? {
        return "", Some(user.error);
      }
      var accessId := AccessId(businessId, userId);
      var details := daoBusinessUser.Get(accessId);
      if details.Err? {
        return "", Some(details.error);
      }
      var removed := daoBusinessUser.Delete(accessId);
      match removed
      case Err(e) => response, err := "", Some(e);
      case Ok(_) => response, err := accessId, None;
    }

    /** GetUserDetails: the access record under the same derived key. */
    method GetUserDetails(businessId: string, userId: string) returns (data: Record, err: Option<Error>)
      requires Valid()
      ensures var key := AccessId(businessId, userId);
        && (businessId !in daoBusiness.rows ==> err == Some(NotFound(BUSINESS_ID, businessId)) && data == map[])
        && (businessId in daoBusiness.rows && userId !in daoAppUser.rows ==>
              err == Some(NotFound(APP_USER_ID, userId)) && data == map[])
        && (businessId in daoBusiness.rows && userId in daoAppUser.rows ==>
              if key in daoBusinessUser.rows then err.None? && data == daoBusinessUser.rows[key]
              else err == Some(NotFound(BUSINESS_USER_ID, key)) && data == map[])
    {
      var business := daoBusiness.Get(businessId);
      if business.Err? {
        return map[], Some(business.error);
      }
      var user := daoAppUser.Get(userId);
      if user.Err? {
        return map[], Some(user.error);
      }
      var details := daoBusinessUser.Get(AccessId(businessId, userId));
      if details.Err? {
        return map[], Some(details.error);
      }
      return details.value, None;
    }
  }

  /** What AddUser stores, GetUserDetails finds and RemoveUser removes: the
      three derive the same access key. */
  method AccessRoundTrip(svc: BusinessBaseService, businessId: string, userId: string)
      returns (added: Record, found: Record, response: string)
    requires svc.Valid()
    requires businessId in svc.daoBusiness.rows && userId in svc.daoAppUser.rows
    requires svc.AccessId(businessId, userId) !in svc.daoBusinessUser.rows
    modifies svc.daoBusinessUser
    ensures added == found == svc.AccessRecord(businessId, userId)
    ensures response == svc.AccessId(businessId, userId)
    ensures svc.daoBusinessUser.rows == old(svc.daoBusinessUser.rows)
  {
    var err;
    added, err := svc.AddUser(businessId, userId);
    found, err := svc.GetUserDetails(businessId, userId);
    response, err := svc.RemoveUser(businessId, userId);
    assert old(svc.daoBusinessUser.rows)[svc.AccessId(businessId, userId) := added] - {svc.AccessId(businessId, userId)}
        == old(svc.daoBusinessUser.rows);
  }
}

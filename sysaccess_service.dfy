/** The system access service of one business: granting a system user a role,
    optionally restricted to a site and a department. */
module SysAccessService {
  import opened Records
  import opened Repository
  import opened Connections

  /** `getServiceModuleCode()` of this service, and the function codes built on it. */
  const MODULE_CODE := SERVICE_MODULE_CODE + "05"
  const GRANT_FUNCODE := MODULE_CODE + "01"
  const CTOR_FUNCODE := SERVICE_MODULE_CODE + "M" + "01"

  const ErrInvalidBusiness := Coded(CTOR_FUNCODE + "01", "Invalid sys_business_id", "Given sys_business_id is not exist")
  const ErrUserMissing := Coded(GRANT_FUNCODE + "01", "UserId not found ", "UserId not found ")
  const ErrUserUnknown := Coded(GRANT_FUNCODE + "02", "UserId not found ", "UserId not found ")
  const ErrRoleMissing := Coded(GRANT_FUNCODE + "03", "Missing RoleId ", "Missing RoleId ")
  /** The one error for an unknown role, site or department. */
  const ErrUnknownScope := Coded(GRANT_FUNCODE + "04", "UserId not found ", "UserId not found ")

  /** GrantPermission asserts each present part to be a string only when the
      checks before it have passed: the user id at once, the role once the
      user is known, the site once the role is known, the department once the
      site is known or absent. An input that fails an earlier check need not
      be typed further on. */
  predicate WellTyped(indata: Record, users: map<string, Record>, roles: map<string, Record>,
                      sites: map<string, Record>)
  {
    && StrIfPresent(indata, SYS_USER_ID)
    && (SYS_USER_ID in indata && indata[SYS_USER_ID].s in users ==>
          && StrIfPresent(indata, SYS_ROLE_ID)
          && (SYS_ROLE_ID in indata && indata[SYS_ROLE_ID].s in roles ==>
                && StrIfPresent(indata, APP_SITE_ID)
                && (APP_SITE_ID !in indata || indata[APP_SITE_ID].s in sites ==>
                      StrIfPresent(indata, APP_DEPT_ID))))
  }

  /** "-" for an optional part that is absent. */
  function Dash(indata: Record, field: string): string {
    if field in indata then "" else "-"
  }

  /** The value of an optional part that is present. */
  function Part(indata: Record, field: string): string
    requires StrIfPresent(indata, field)
  {
    if field in indata then indata[field].s else ""
  }

  /** The outcome of GrantPermission's checks, in closed form: the user is
      checked before the role, the role before the site, the site before the
      department; the access key is the user id with a "-" in front for each
      absent part and the value of each present part behind, site first. */
  function GrantKey(indata: Record, users: map<string, Record>, roles: map<string, Record>,
                    sites: map<string, Record>, departments: map<string, Record>): Result<string>
    requires WellTyped(indata, users, roles, sites)
  {
    if SYS_USER_ID !in indata then Err(ErrUserMissing)
    else if indata[SYS_USER_ID].s !in users then Err(ErrUserUnknown)
    else if SYS_ROLE_ID !in indata then Err(ErrRoleMissing)
    else if indata[SYS_ROLE_ID].s !in roles then Err(ErrUnknownScope)
    else if APP_SITE_ID in indata && indata[APP_SITE_ID].s !in sites then Err(ErrUnknownScope)
    else if APP_DEPT_ID in indata && indata[APP_DEPT_ID].s !in departments then Err(ErrUnknownScope)
    else Ok(Dash(indata, APP_DEPT_ID) + Dash(indata, APP_SITE_ID) + indata[SYS_USER_ID].s
            + Part(indata, APP_SITE_ID) + Part(indata, APP_DEPT_ID))
  }

  /** With both optional parts present the key is user, site and department
      concatenated; with both absent it is "--" and the user. */
  lemma GrantKeyShapes(indata: Record, users: map<string, Record>, roles: map<string, Record>,
                       sites: map<string, Record>, departments: map<string, Record>)
    requires WellTyped(indata, users, roles, sites)
    requires GrantKey(indata, users, roles, sites, departments).Ok?
    ensures var key := GrantKey(indata, users, roles, sites, departments).value;
      && (APP_SITE_ID in indata && APP_DEPT_ID in indata ==>
            key == indata[SYS_USER_ID].s + indata[APP_SITE_ID].s + indata[APP_DEPT_ID].s)
      && (APP_SITE_ID !in indata && APP_DEPT_ID !in indata ==> key == "--" + indata[SYS_USER_ID].s)
  {
  }

  class SysAccessBaseService {
    const businessID: string
    const daoSysAccess: Dao
    const daoSysUser: Dao
    const daoBusiness: Dao
    /** Roles, sites and departments, looked up through the access DAO in the source. */
    const daoRoles: Dao
    const daoSites: Dao
    const daoDepartments: Dao
    /** `utils.GenerateChecksumId`. */
    const checksum: (string, string) -> string

    predicate Valid() {
      && daoSysAccess.keyField == SYS_ACCESS_ID && daoSysUser.keyField == SYS_USER_ID
      && daoBusiness.keyField == BUSINESS_ID && daoRoles.keyField == SYS_ROLE_ID
      && daoSites.keyField == APP_SITE_ID && daoDepartments.keyField == APP_DEPT_ID
      && daoSysAccess != daoSysUser && daoSysAccess != daoBusiness && daoSysAccess != daoRoles
      && daoSysAccess != daoSites && daoSysAccess != daoDepartments
    }

    constructor (businessID: string, daoSysAccess: Dao, daoSysUser: Dao, daoBusiness: Dao,
                 daoRoles: Dao, daoSites: Dao, daoDepartments: Dao, checksum: (string, string) -> string)
      requires daoSysAccess.keyField == SYS_ACCESS_ID && daoSysUser.keyField == SYS_USER_ID
      requires daoBusiness.keyField == BUSINESS_ID && daoRoles.keyField == SYS_ROLE_ID
      requires daoSites.keyField == APP_SITE_ID && daoDepartments.keyField == APP_DEPT_ID
      requires daoSysAccess != daoSysUser && daoSysAccess != daoBusiness && daoSysAccess != daoRoles
      requires daoSysAccess != daoSites && daoSysAccess != daoDepartments
      ensures Valid() && this.businessID == businessID && this.checksum == checksum
      ensures this.daoSysAccess == daoSysAccess && this.daoSysUser == daoSysUser && this.daoBusiness == daoBusiness
      ensures this.daoRoles == daoRoles && this.daoSites == daoSites && this.daoDepartments == daoDepartments
    {
      this.businessID := businessID;
      this.daoSysAccess := daoSysAccess;
      this.daoSysUser := daoSysUser;
      this.daoBusiness := daoBusiness;
      this.daoRoles := daoRoles;
      this.daoSites := daoSites;
      this.daoDepartments := daoDepartments;
      this.checksum := checksum;
    }

    /** The checks of GrantPermission and the access key they build, by the
        source's successive reassignments of the key. */
    method BuildAccessKey(indata: Record) returns (r: Result<string>)
      requires Valid() && WellTyped(indata, daoSysUser.rows, daoRoles.rows, daoSites.rows)
      ensures r == GrantKey(indata, daoSysUser.rows, daoRoles.rows, daoSites.rows, daoDepartments.rows)
    {
      var accessKey := "";
      if SYS_USER_ID !in indata {
        return Err(ErrUserMissing);
      } else if daoSysUser.Get(indata[SYS_USER_ID].s).Err? {
        return Err(ErrUserUnknown);
      } else {
        accessKey := accessKey + indata[SYS_USER_ID].s;
      }

      if SYS_ROLE_ID !in indata {
        return Err(ErrRoleMissing);
      } else if daoRoles.Get(indata[SYS_ROLE_ID].s).Err? {
        return Err(ErrUnknownScope);
      }

      if APP_SITE_ID !in indata {
        accessKey := "-" + accessKey;
      } else if daoSites.Get(indata[APP_SITE_ID].s).Err? {
        return Err(ErrUnknownScope);
      } else {
        accessKey := accessKey + indata[APP_SITE_ID].s;
      }
      assert accessKey == Dash(indata, APP_SITE_ID) + indata[SYS_USER_ID].s + Part(indata, APP_SITE_ID);

      if APP_DEPT_ID !in indata {
        accessKey := "-" + accessKey;
      } else if daoDepartments.Get(indata[APP_DEPT_ID].s).Err? {
        return Err(ErrUnknownScope);
      } else {
        accessKey := accessKey + indata[APP_DEPT_ID].s;
      }
      assert accessKey == Dash(indata, APP_DEPT_ID) + Dash(indata, APP_SITE_ID) + indata[SYS_USER_ID].s
                          + Part(indata, APP_SITE_ID) + Part(indata, APP_DEPT_ID);
      return Ok(accessKey);
    }

    /** GrantPermission: the checks in order, then `access_id =
        checksum("aces", key)`; the store is written only when an access
        record under that id can already be read (as the source is written). */
    method GrantPermission(indata: Record) returns (data: Record, err: Option<Error>, indata': Record)
      requires Valid() && WellTyped(indata, daoSysUser.rows, daoRoles.rows, daoSites.rows)
      modifies daoSysAccess
      ensures match GrantKey(indata, daoSysUser.rows, daoRoles.rows, daoSites.rows, daoDepartments.rows)
        case Err(e) =>
          data == indata && err == Some(e) && indata' == indata && daoSysAccess.rows == old(daoSysAccess.rows)
        case Ok(key) =>
          var accessId := checksum("aces", key);
          if accessId !in old(daoSysAccess.rows) then
            && data == map[] && err == Some(NotFound(SYS_ACCESS_ID, accessId)) && indata' == indata
            && daoSysAccess.rows == old(daoSysAccess.rows)
          else
            && indata' == indata[SYS_ACCESS_ID := Str(accessId)]
            && data == indata' && err.None?
            && daoSysAccess.rows == old(daoSysAccess.rows)[accessId := indata']
    {
      var built := BuildAccessKey(indata);
      match built
      case Err(e) =>
        return indata, Some(e), indata;
      case Ok(accessKey) =>
        var accessId := checksum("aces", accessKey);
        var existing := daoSysAccess.Get(accessId);
        match existing
        case Err(e) =>
          return map[], Some(e), indata;
        case Ok(_) =>
          indata' := indata[SYS_ACCESS_ID := Str(accessId)];
          var granted := daoSysAccess.Put(indata');
          match granted
          case Err(e) => data, err := map[], Some(e);
          case Ok(r) => data, err := r, None;
    }
  }

  /** NewSysAccessService as written. The open must succeed (the source ends
      the process otherwise). Without a business id the connection is closed
      again; with an unknown business it is left open although no service is
      returned to close it. */
  method NewSysAccessServiceAsWritten(props: Record, conn: Connector, daoSysAccess: Dao, daoSysUser: Dao, daoBusiness: Dao,
                                      daoRoles: Dao, daoSites: Dao, daoDepartments: Dao, checksum: (string, string) -> string)
      returns (svc: SysAccessBaseService?, err: Option<Error>)
    requires conn.refusal(props).None?
    requires daoSysAccess.keyField == SYS_ACCESS_ID && daoSysUser.keyField == SYS_USER_ID
    requires daoBusiness.keyField == BUSINESS_ID && daoRoles.keyField == SYS_ROLE_ID
    requires daoSites.keyField == APP_SITE_ID && daoDepartments.keyField == APP_DEPT_ID
    requires daoSysAccess != daoSysUser && daoSysAccess != daoBusiness && daoSysAccess != daoRoles
    requires daoSysAccess != daoSites && daoSysAccess != daoDepartments
    modifies conn
    ensures GetStr(props, BUSINESS_ID).None? ==>
              svc == null && err == Some(MissingMember(BUSINESS_ID))
              && conn.log == old(conn.log) + [Opened(props), Closed(props)]
    ensures GetStr(props, BUSINESS_ID).Some? && props[BUSINESS_ID].s !in daoBusiness.rows ==>
              svc == null && err == Some(ErrInvalidBusiness)
              && conn.log == old(conn.log) + [Opened(props)]
              && OpenHandles(conn.log) == OpenHandles(old(conn.log)) + 1
    ensures GetStr(props, BUSINESS_ID).Some? && props[BUSINESS_ID].s in daoBusiness.rows ==>
              svc != null && fresh(svc) && svc.Valid() && svc.businessID == props[BUSINESS_ID].s
              && err.None? && conn.log == old(conn.log) + [Opened(props)]
  {
    var openErr := conn.Open(props);
    var found := GetStr(props, BUSINESS_ID);
    if found.None? {
      conn.Close(props);
      return null, Some(MissingMember(BUSINESS_ID));
    }
    var businessId := found.value;
    if daoBusiness.Get(businessId).Err? {
      OpenHandlesAppend(old(conn.log), [Opened(props)]);
      return null, Some(ErrInvalidBusiness);
    }
    svc := new SysAccessBaseService(businessId, daoSysAccess, daoSysUser, daoBusiness,
                                    daoRoles, daoSites, daoDepartments, checksum);
    err := None;
  }

  /** NewSysAccessService with the connection released on every error path:
      a failed construction leaves no connection open. */
  method NewSysAccessService(props: Record, conn: Connector, daoSysAccess: Dao, daoSysUser: Dao, daoBusiness: Dao,
                             daoRoles: Dao, daoSites: Dao, daoDepartments: Dao, checksum: (string, string) -> string)
      returns (svc: SysAccessBaseService?, err: Option<Error>)
    requires conn.refusal(props).None?
    requires daoSysAccess.keyField == SYS_ACCESS_ID && daoSysUser.keyField == SYS_USER_ID
    requires daoBusiness.keyField == BUSINESS_ID && daoRoles.keyField == SYS_ROLE_ID
    requires daoSites.keyField == APP_SITE_ID && daoDepartments.keyField == APP_DEPT_ID
    requires daoSysAccess != daoSysUser && daoSysAccess != daoBusiness && daoSysAccess != daoRoles
    requires daoSysAccess != daoSites && daoSysAccess != daoDepartments
    modifies conn
    ensures GetStr(props, BUSINESS_ID).None? ==> svc == null && err == Some(MissingMember(BUSINESS_ID))
    ensures GetStr(props, BUSINESS_ID).Some? && props[BUSINESS_ID].s !in daoBusiness.rows ==>
              svc == null && err == Some(ErrInvalidBusiness)
    ensures err.Some? ==> conn.log == old(conn.log) + [Opened(props), Closed(props)]
                          && OpenHandles(conn.log) == OpenHandles(old(conn.log))
    ensures GetStr(props, BUSINESS_ID).Some? && props[BUSINESS_ID].s in daoBusiness.rows ==>
              svc != null && fresh(svc) && svc.Valid() && svc.businessID == props[BUSINESS_ID].s
              && err.None? && conn.log == old(conn.log) + [Opened(props)]
  {
    var openErr := conn.Open(props);
    var found := GetStr(props, BUSINESS_ID);
    if found.None? {
      conn.Close(props);
      OpenThenClose(old(conn.log), props, props);
      return null, Some(MissingMember(BUSINESS_ID));
    }
    var businessId := found.value;
    if daoBusiness.Get(businessId).Err? {
      conn.Close(props);
      OpenThenClose(old(conn.log), props, props);
      return null, Some(ErrInvalidBusiness);
    }
    svc := new SysAccessBaseService(businessId, daoSysAccess, daoSysUser, daoBusiness,
                                    daoRoles, daoSites, daoDepartments, checksum);
    err := None;
  }
}

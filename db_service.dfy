/** Tenant database resolution: from a request's property bag to the
    connection descriptor of the database that holds the tenant's data, through
    the business directory and the region directory of the platform database. */
module TenantDb {
  import opened Records
  import opened Repository
  import opened Connections

  // Keys of a connection descriptor (their values belong to code outside this model).
  const DB_TYPE := "db_type"
  const DB_SERVER := "db_server"
  const DB_USER := "db_user"
  const DB_SECRET := "db_secret"
  const DB_NAME := "db_name"

  const DescriptorKeys: set<string> := {DB_TYPE, DB_SERVER, DB_USER, DB_SECRET, DB_NAME, BUSINESS_ID}

  /** The function code of the resolver, `GetServiceModuleCode() + "M" + "01"`. */
  const FUNCODE := SERVICE_MODULE_CODE + "M" + "01"

  const ErrInvalidBusiness := Coded(FUNCODE + "01", "Invalid business_id", "Given business_id is not exist")

  /** A member read whose error is discarded: the zero value when absent or ill-typed. */
  function StrOr(m: Record, field: string): string {
    match GetStr(m, field) case Some(s) => s case None => ""
  }

  function IntOr(m: Record, field: string): int {
    match GetInt(m, field) case Some(i) => i case None => 0
  }

  function BoolOr(m: Record, field: string): bool {
    match GetBool(m, field) case Some(b) => b case None => false
  }

  /** The resolved database name of a business of a region. */
  function TenantDbName(business: Record, region: Record, businessId: string): string {
    var base := StrOr(region, REGION_DB_NAME);
    if BoolOr(business, BUSINESS_IS_TENANT_DB) then base + "-" + businessId else base
  }

  /** `getRegionAndTenantDBInfo` once the platform database is open, as a
      function of the request and of the two directories. */
  function ResolveTenantDb(props: Record, businesses: map<string, Record>, regions: map<string, Record>): (r: Result<Record>)
    // No business id: the request is the platform database's own configuration.
    ensures GetStr(props, BUSINESS_ID).None? ==> r == Ok(props)
    ensures GetStr(props, BUSINESS_ID).Some? ==>
      var id := props[BUSINESS_ID].s;
      && (id !in businesses ==> r == Err(ErrInvalidBusiness))
      && (id in businesses && GetStr(businesses[id], BUSINESS_REGION_ID).None? ==>
            r == Err(MissingMember(BUSINESS_REGION_ID)))
      && (id in businesses && GetStr(businesses[id], BUSINESS_REGION_ID).Some? ==>
            var regionId := businesses[id][BUSINESS_REGION_ID].s;
            && (regionId !in regions ==> r == Err(NotFound(REGION_ID, regionId)))
            && (regionId in regions ==>
                  && r.Ok?
                  && r.value.Keys == DescriptorKeys
                  && r.value[BUSINESS_ID] == Str(id)
                  && r.value[DB_TYPE] == Int(IntOr(regions[regionId], REGION_DB_TYPE))
                  && r.value[DB_SERVER] == Str(StrOr(regions[regionId], REGION_DB_SERVER))
                  && r.value[DB_USER] == Str(StrOr(regions[regionId], REGION_DB_USER))
                  && r.value[DB_SECRET] == Str(StrOr(regions[regionId], REGION_DB_SECRET))
                  && r.value[DB_NAME] == Str(TenantDbName(businesses[id], regions[regionId], id))))
  {
    match GetStr(props, BUSINESS_ID)
    case None => Ok(props)
    case Some(id) =>
      if id !in businesses then Err(ErrInvalidBusiness)
      else
        var business := businesses[id];
        match GetStr(business, BUSINESS_REGION_ID)
        case None => Err(MissingMember(BUSINESS_REGION_ID))
        case Some(regionId) =>
          if regionId !in regions then Err(NotFound(REGION_ID, regionId))
          else
            var region := regions[regionId];
            Ok(map[DB_TYPE := Int(IntOr(region, REGION_DB_TYPE)),
                   DB_SERVER := Str(StrOr(region, REGION_DB_SERVER)),
                   DB_USER := Str(StrOr(region, REGION_DB_USER)),
                   DB_SECRET := Str(StrOr(region, REGION_DB_SECRET)),
                   DB_NAME := Str(TenantDbName(business, region, id)),
                   BUSINESS_ID := Str(id)])
  }

  /** A descriptor resolves to itself: it carries the business id it was made
      for, so resolving it again against the same directories gives it back. */
  lemma ResolveIsFixpoint(props: Record, businesses: map<string, Record>, regions: map<string, Record>)
    requires GetStr(props, BUSINESS_ID).Some?
    requires ResolveTenantDb(props, businesses, regions).Ok?
    ensures var d := ResolveTenantDb(props, businesses, regions).value;
            ResolveTenantDb(d, businesses, regions) == Ok(d)
  {
  }

  lemma AppendCancel(p: string, a: string, b: string)
    requires p + a == p + b
    ensures a == b
  {
    assert a == (p + a)[|p|..];
    assert b == (p + b)[|p|..];
  }

  /** Tenant isolation: two different businesses with the tenant-database flag
      never share a database name, even in the same region. */
  lemma TenantDatabasesDistinct(props1: Record, props2: Record, businesses: map<string, Record>, regions: map<string, Record>)
    requires GetStr(props1, BUSINESS_ID).Some? && GetStr(props2, BUSINESS_ID).Some?
    requires props1[BUSINESS_ID] != props2[BUSINESS_ID]
    requires ResolveTenantDb(props1, businesses, regions).Ok? && ResolveTenantDb(props2, businesses, regions).Ok?
    requires GetBool(businesses[props1[BUSINESS_ID].s], BUSINESS_IS_TENANT_DB) == Some(true)
    requires GetBool(businesses[props2[BUSINESS_ID].s], BUSINESS_IS_TENANT_DB) == Some(true)
    requires businesses[props1[BUSINESS_ID].s][BUSINESS_REGION_ID] == businesses[props2[BUSINESS_ID].s][BUSINESS_REGION_ID]
    ensures ResolveTenantDb(props1, businesses, regions).value[DB_NAME] != ResolveTenantDb(props2, businesses, regions).value[DB_NAME]
  {
    var id1, id2 := props1[BUSINESS_ID].s, props2[BUSINESS_ID].s;
    var region := regions[businesses[id1][BUSINESS_REGION_ID].s];
    var base := StrOr(region, REGION_DB_NAME);
    if TenantDbName(businesses[id1], region, id1) == TenantDbName(businesses[id2], region, id2) {
      assert (base + "-") + id1 == (base + "-") + id2;
      AppendCancel(base + "-", id1, id2);
    }
  }

  /** Without the flag (or with it missing), every business of a region uses
      the region's database name exactly. */
  lemma SharedDatabaseWithoutFlag(props: Record, businesses: map<string, Record>, regions: map<string, Record>)
    requires GetStr(props, BUSINESS_ID).Some?
    requires ResolveTenantDb(props, businesses, regions).Ok?
    requires GetBool(businesses[props[BUSINESS_ID].s], BUSINESS_IS_TENANT_DB) != Some(true)
    ensures var business := businesses[props[BUSINESS_ID].s];
            ResolveTenantDb(props, businesses, regions).value[DB_NAME]
              == Str(StrOr(regions[business[BUSINESS_REGION_ID].s], REGION_DB_NAME))
  {
  }

  /** `getRegionAndTenantDBInfo`: resolves the request against the platform
      database, which it opens with the request's own configuration and closes
      again on every path once it was opened. */
  method GetRegionAndTenantDbInfo(props: Record, conn: Connector, daoBusiness: Dao, daoRegion: Dao)
      returns (data: Record, err: Option<Error>)
    requires daoBusiness.keyField == BUSINESS_ID && daoRegion.keyField == REGION_ID
    modifies conn
    ensures GetStr(props, BUSINESS_ID).None? ==> data == props && err.None? && conn.log == old(conn.log)
    ensures GetStr(props, BUSINESS_ID).Some? && conn.refusal(props).Some? ==>
              data == map[] && err == conn.refusal(props) && conn.log == old(conn.log)
    ensures GetStr(props, BUSINESS_ID).Some? && conn.refusal(props).None? ==>
              && conn.log == old(conn.log) + [Opened(props), Closed(props)]
              && match ResolveTenantDb(props, daoBusiness.rows, daoRegion.rows)
                 case Ok(d) => data == d && err.None?
                 case Err(e) => data == map[] && err == Some(e)
    ensures OpenHandles(conn.log) == OpenHandles(old(conn.log))
  {
    var found := GetStr(props, BUSINESS_ID);
    if found.None? {
      return props, None;
    }
    var businessId := found.value;

    err := conn.Open(props);
    if err.Some? {
      return map[], err;
    }

    var dataBusiness := daoBusiness.Get(businessId);
    if dataBusiness.Err? {
      data, err := map[], Some(ErrInvalidBusiness);
    } else {
      var regionId := GetStr(dataBusiness.value, BUSINESS_REGION_ID);
      if regionId.None? {
        data, err := map[], Some(MissingMember(BUSINESS_REGION_ID));
      } else {
        var dataRegion := daoRegion.Get(regionId.value);
        if dataRegion.Err? {
          data, err := map[], Some(dataRegion.error);
        } else {
          var region := dataRegion.value;
          var dbType := IntOr(region, REGION_DB_TYPE);
          var dbServer := StrOr(region, REGION_DB_SERVER);
          var dbUser := StrOr(region, REGION_DB_USER);
          var dbSecret := StrOr(region, REGION_DB_SECRET);
          var dbName := StrOr(region, REGION_DB_NAME);
          if BoolOr(dataBusiness.value, BUSINESS_IS_TENANT_DB) {
            dbName := dbName + "-" + businessId;
          }
          data := map[DB_TYPE := Int(dbType), DB_SERVER := Str(dbServer), DB_USER := Str(dbUser),
                      DB_SECRET := Str(dbSecret), DB_NAME := Str(dbName), BUSINESS_ID := Str(businessId)];
          err := None;
        }
      }
    }
    // the deferred close
    conn.Close(props);
    OpenThenClose(old(conn.log), props, props);
  }

  /** `OpenRegionDatabaseService`: opens the resolved database, and only when
      resolution succeeded. The handle is the configuration it was opened with. */
  method OpenRegionDatabaseService(props: Record, conn: Connector, daoBusiness: Dao, daoRegion: Dao)
      returns (handle: Option<Record>, err: Option<Error>)
    requires daoBusiness.keyField == BUSINESS_ID && daoRegion.keyField == REGION_ID
    modifies conn
    ensures GetStr(props, BUSINESS_ID).None? ==>
              && err == conn.refusal(props) && handle == (if err.None? then Some(props) else None)
              && conn.log == old(conn.log) + (if err.None? then [Opened(props)] else [])
    ensures GetStr(props, BUSINESS_ID).Some? && conn.refusal(props).Some? ==>
              handle.None? && err == conn.refusal(props) && conn.log == old(conn.log)
    ensures GetStr(props, BUSINESS_ID).Some? && conn.refusal(props).None? ==>
              match ResolveTenantDb(props, daoBusiness.rows, daoRegion.rows)
              case Err(e) => handle.None? && err == Some(e)
                             && conn.log == old(conn.log) + [Opened(props), Closed(props)]
              case Ok(d) => err == conn.refusal(d) && (handle.Some? <==> err.None?)
                            && (handle.Some? ==> handle.value == d)
                            && conn.log == old(conn.log) + [Opened(props), Closed(props)]
                                           + (if err.None? then [Opened(d)] else [])
  {
    var propsRegion;
    propsRegion, err := GetRegionAndTenantDbInfo(props, conn, daoBusiness, daoRegion);
    handle := None;
    if err.None? {
      err := conn.Open(propsRegion);
      if err.None? {
        handle := Some(propsRegion);
      }
    }
  }
}

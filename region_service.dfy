/** The region service: the directory of deployment regions and their
    database connection parameters. */
module RegionService {
  import opened Records
  import opened Repository

  const MISSING_CODE := "S30102"
  const ErrMissingRegionId := Coded(MISSING_CODE, "Missing Region ID!", "Region ID parameter is missing")
  const ErrMissingName := Coded(MISSING_CODE, "Missing value", "Parameter " + REGION_NAME + " is missing")
  const ErrMissingDbType := Coded(MISSING_CODE, "Missing value", "Parameter " + REGION_DB_TYPE + " is missing")
  const ErrRegionExists := Coded(MISSING_CODE, "Existing Region ID !", "Given Region ID already exist")
  const ErrRegionNotFound := AppError(400, "", "Bad Request", "Region not found")

  /** validateCreate as evidently intended: the region id, the name and the
      database type must be present strings, checked in that order; only the
      first one missing is reported. */
  function ValidateCreate(dataRegion: Record): (err: Option<Error>)
    ensures err.None? <==> GetStr(dataRegion, REGION_ID).Some? && GetStr(dataRegion, REGION_NAME).Some?
                           && GetStr(dataRegion, REGION_DB_TYPE).Some?
    ensures GetStr(dataRegion, REGION_ID).None? ==> err == Some(ErrMissingRegionId)
    ensures GetStr(dataRegion, REGION_ID).Some? && GetStr(dataRegion, REGION_NAME).None? ==>
              err == Some(ErrMissingName)
    ensures (GetStr(dataRegion, REGION_ID).Some? && GetStr(dataRegion, REGION_NAME).Some?
             && GetStr(dataRegion, REGION_DB_TYPE).None?) ==> err == Some(ErrMissingDbType)
  {
    if GetStr(dataRegion, REGION_ID).None? then Some(ErrMissingRegionId)
    else if GetStr(dataRegion, REGION_NAME).None? then Some(ErrMissingName)
    else if GetStr(dataRegion, REGION_DB_TYPE).None? then Some(ErrMissingDbType)
    else None
  }

  /** validateCreate as written: every branch assigns the error to the `err`
      declared by its own `if` header, which shadows the function's `err`, so
      the function's `err` stays nil and every record passes. */
  method ValidateCreateAsWritten(dataRegion: Record) returns (data: Record, err: Option<Error>)
    ensures data == dataRegion && err.None?
  {
    err := None;
    {
      var err: Option<Error> := if GetStr(dataRegion, REGION_ID).None? then Some(MissingMember(REGION_ID)) else None;
      if err.Some? {
        err := Some(ErrMissingRegionId);
      } else {
        var err: Option<Error> := if GetStr(dataRegion, REGION_NAME).None? then Some(MissingMember(REGION_NAME)) else None;
        if err.Some? {
          err := Some(ErrMissingName);
        } else {
          var err: Option<Error> := if GetStr(dataRegion, REGION_DB_TYPE).None? then Some(MissingMember(REGION_DB_TYPE)) else None;
          if err.Some? {
            err := Some(ErrMissingDbType);
          }
        }
      }
    }
    data := dataRegion;
  }

  /** A region with an id but no name: the intended check refuses it, while the
      check as written lets it through. */
  method MissingNamePassesAsWritten() returns (asWritten: Option<Error>, intended: Option<Error>)
    ensures asWritten.None? && intended == Some(ErrMissingName)
  {
    var region: Record := map[REGION_ID := Str("r1"), REGION_DB_TYPE := Str("1")];
    var passed;
    passed, asWritten := ValidateCreateAsWritten(region);
    intended := ValidateCreate(region);
  }

  class RegionBaseService {
    const daoRegion: Dao

    predicate Valid() {
      daoRegion.keyField == REGION_ID
    }

    constructor (daoRegion: Dao)
      requires daoRegion.keyField == REGION_ID
      ensures Valid() && this.daoRegion == daoRegion
    {
      this.daoRegion := daoRegion;
    }

    /** Create as written: the region id must be a present string (it is
        lower-cased before anything else). validateCreate never reports an
        error, so every request goes on: the id is written back, an existing
        id is refused, and a created region is read back from the store under
        the lower-cased id. */
    method Create(indata: Record) returns (data: Record, err: Option<Error>, indata': Record)
      requires Valid()
      requires REGION_ID in indata && indata[REGION_ID].Str?
      modifies daoRegion
      ensures var id := Lower(indata[REGION_ID].s);
        && indata' == indata[REGION_ID := Str(id)]
        && data == indata'
        && (id in old(daoRegion.rows) ==> err == Some(ErrRegionExists) && daoRegion.rows == old(daoRegion.rows))
        && (id !in old(daoRegion.rows) ==> err.None? && daoRegion.rows == old(daoRegion.rows)[id := indata'])
      ensures old(KeysAgree(daoRegion.rows, REGION_ID)) ==> KeysAgree(daoRegion.rows, REGION_ID)
    {
      var regionId := Lower(indata[REGION_ID].s);

      // The error validateCreate returns is always nil, so the source's early
      // return on it is never taken.
      var validated, _ := ValidateCreateAsWritten(indata);

      indata' := validated[REGION_ID := Str(regionId)];
      data, err := Insert(regionId, indata');
    }

    /** Create with the evidently intended validateCreate: an invalid request
        is refused before the id is written back; the rest is as in Create. */
    method CreateCorrected(indata: Record) returns (data: Record, err: Option<Error>, indata': Record)
      requires Valid()
      requires REGION_ID in indata && indata[REGION_ID].Str?
      modifies daoRegion
      ensures ValidateCreate(indata).Some? ==>
                && data == map[] && err == ValidateCreate(indata) && indata' == indata
                && daoRegion.rows == old(daoRegion.rows)
      ensures ValidateCreate(indata).None? ==>
                var id := Lower(indata[REGION_ID].s);
                && indata' == indata[REGION_ID := Str(id)]
                && data == indata'
                && (id in old(daoRegion.rows) ==> err == Some(ErrRegionExists) && daoRegion.rows == old(daoRegion.rows))
                && (id !in old(daoRegion.rows) ==> err.None? && daoRegion.rows == old(daoRegion.rows)[id := indata'])
      ensures old(KeysAgree(daoRegion.rows, REGION_ID)) ==> KeysAgree(daoRegion.rows, REGION_ID)
    {
      var regionId := Lower(indata[REGION_ID].s);

      var invalid := ValidateCreate(indata);
      if invalid.Some? {
        return map[], invalid, indata;
      }

      indata' := indata[REGION_ID := Str(regionId)];
      data, err := Insert(regionId, indata');
    }

    /** The part of Create after validation: the duplicate check, the insert
        and the read-back. */
    method Insert(regionId: string, indata: Record) returns (data: Record, err: Option<Error>)
      requires Valid()
      requires REGION_ID in indata && indata[REGION_ID] == Str(regionId)
      modifies daoRegion
      ensures regionId in old(daoRegion.rows) ==>
                data == indata && err == Some(ErrRegionExists) && daoRegion.rows == old(daoRegion.rows)
      ensures regionId !in old(daoRegion.rows) ==>
                data == indata && err.None? && daoRegion.rows == old(daoRegion.rows)[regionId := indata]
      ensures old(KeysAgree(daoRegion.rows, REGION_ID)) ==> KeysAgree(daoRegion.rows, REGION_ID)
    {
      if daoRegion.Get(regionId).Ok? {
        return indata, Some(ErrRegionExists);
      }

      var created := daoRegion.Create(indata);
      match created
      case Err(e) => return indata, Some(e);
      case Ok(_) =>

      var readBack := daoRegion.Get(regionId);
      match readBack
      case Ok(r) => data, err := r, None;
      case Err(e) => data, err := map[], Some(e);
    }

    /** validateKeyExist. */
    method ValidateKeyExist(key: string) returns (data: Record, err: Option<Error>)
      requires Valid()
      ensures key in daoRegion.rows ==> err.None? && data == daoRegion.rows[key]
      ensures key !in daoRegion.rows ==> err == Some(ErrRegionNotFound) && data == map[]
    {
      var found := daoRegion.Get(key);
      if found.Err? {
        return map[], Some(ErrRegionNotFound);
      }
      return found.value, None;
    }

    /** Update: refuses an unknown region before touching the request; the
        region id is then stripped, so no Update changes it. */
    method Update(regionId: string, indata: Record) returns (data: Record, err: Option<Error>, indata': Record)
      requires Valid()
      modifies daoRegion
      ensures regionId !in old(daoRegion.rows) ==>
                err == Some(ErrRegionNotFound) && data == map[] && indata' == indata
                && daoRegion.rows == old(daoRegion.rows)
      ensures regionId in old(daoRegion.rows) ==>
                && indata' == Strip(indata, {REGION_ID})
                && err.None? && data == old(daoRegion.rows)[regionId] + indata'
                && daoRegion.rows == old(daoRegion.rows)[regionId := data]
      ensures FieldsKept(old(daoRegion.rows), daoRegion.rows, {REGION_ID})
      ensures old(KeysAgree(daoRegion.rows, REGION_ID)) ==> KeysAgree(daoRegion.rows, REGION_ID)
    {
      var _, missing := ValidateKeyExist(regionId);
      if missing.Some? {
        return map[], missing, indata;
      }
      indata' := Strip(indata, {REGION_ID});
      MergeKeepsFields(daoRegion.rows, regionId, indata', {REGION_ID}, REGION_ID);
      var updated := daoRegion.Update(regionId, indata');
      match updated
      case Err(e) => data, err := map[], Some(e);
      case Ok(r) => data, err := r, None;
    }

    /** Delete: refuses an unknown region; a permanent delete removes the
        record, any other is an Update carrying only `is_deleted = true`. */
    method Delete(regionId: string, deletePermanent: bool) returns (err: Option<Error>)
      requires Valid()
      modifies daoRegion
      ensures regionId !in old(daoRegion.rows) ==>
                err == Some(ErrRegionNotFound) && daoRegion.rows == old(daoRegion.rows)
      ensures regionId in old(daoRegion.rows) ==>
                && err.None?
                && daoRegion.rows == if deletePermanent then old(daoRegion.rows) - {regionId}
                                     else old(daoRegion.rows)[regionId := old(daoRegion.rows)[regionId][IS_DELETED := Bool(true)]]
    {
      var _, missing := ValidateKeyExist(regionId);
      if missing.Some? {
        return missing;
      }
      if deletePermanent {
        var result := daoRegion.Delete(regionId);
        match result
        case Err(e) => err := Some(e);
        case Ok(_) => err := None;
      } else {
        var flag: Record := map[IS_DELETED := Bool(true)];
        assert old(daoRegion.rows)[regionId] + Strip(flag, {REGION_ID})
            == old(daoRegion.rows)[regionId][IS_DELETED := Bool(true)];
        var _, updateErr, _ := Update(regionId, flag);
        err := updateErr;
      }
    }
  }

  /** As written, Create stores a region that has no name: on an empty table,
      `{region_id: "R1", region_db_type: "1"}` is stored under "r1". */
  method NamelessRegionStoredAsWritten() returns (stored: map<string, Record>, err: Option<Error>)
    ensures err.None? && stored.Keys == {"r1"} && REGION_NAME !in stored["r1"]
  {
    var dao := new Dao(REGION_ID, map[]);
    var svc := new RegionBaseService(dao);
    assert Lower("R1") == "r1";
    var _, createErr, _ := svc.Create(map[REGION_ID := Str("R1"), REGION_DB_TYPE := Str("1")]);
    err := createErr;
    stored := dao.rows;
  }
}

/** The application role service. */
module AppRoleService {
  import opened Records
  import opened Repository

  class AppRoleBaseService {
    const daoAppRole: Dao

    predicate Valid() {
      daoAppRole.keyField == APP_ROLE_ID
    }

    constructor (daoAppRole: Dao)
      requires daoAppRole.keyField == APP_ROLE_ID
      ensures Valid() && this.daoAppRole == daoAppRole
    {
      this.daoAppRole := daoAppRole;
    }

    /** Create: the role id is lower-cased, or generated as "role_" and `guid`
        (the fresh `xid`), and written back. There is no duplicate check of
        its own: a clash is the store's error, returned with the request. */
    method Create(indata: Record, guid: string) returns (data: Record, err: Option<Error>, indata': Record)
      requires Valid()
      requires StrIfPresent(indata, APP_ROLE_ID)
      modifies daoAppRole
      ensures var id := NewId(indata, APP_ROLE_ID, "role_" + guid);
        && indata' == indata[APP_ROLE_ID := Str(id)]
        && data == indata'
        && (id in old(daoAppRole.rows) ==> err == Some(Duplicate(APP_ROLE_ID, id)) && daoAppRole.rows == old(daoAppRole.rows))
        && (id !in old(daoAppRole.rows) ==> err.None? && daoAppRole.rows == old(daoAppRole.rows)[id := indata'])
      ensures old(KeysAgree(daoAppRole.rows, APP_ROLE_ID)) ==> KeysAgree(daoAppRole.rows, APP_ROLE_ID)
    {
      var roleId := NewId(indata, APP_ROLE_ID, "role_" + guid);
      indata' := indata[APP_ROLE_ID := Str(roleId)];
      var created := daoAppRole.Create(indata');
      match created
      case Err(e) => data, err := indata', Some(e);
      case Ok(r) => data, err := r, None;
    }

    /** Update: the role id is deleted from the request, so no Update changes it. */
    method Update(roleId: string, indata: Record) returns (data: Record, err: Option<Error>, indata': Record)
      requires Valid()
      modifies daoAppRole
      ensures indata' == Strip(indata, {APP_ROLE_ID})
      ensures roleId in old(daoAppRole.rows) ==>
                && err.None? && data == old(daoAppRole.rows)[roleId] + indata'
                && daoAppRole.rows == old(daoAppRole.rows)[roleId := data]
      ensures roleId !in old(daoAppRole.rows) ==>
                err == Some(NotFound(APP_ROLE_ID, roleId)) && data == map[] && daoAppRole.rows == old(daoAppRole.rows)
      ensures FieldsKept(old(daoAppRole.rows), daoAppRole.rows, {APP_ROLE_ID})
      ensures old(KeysAgree(daoAppRole.rows, APP_ROLE_ID)) ==> KeysAgree(daoAppRole.rows, APP_ROLE_ID)
    {
      indata' := Strip(indata, {APP_ROLE_ID});
      if roleId in daoAppRole.rows {
        MergeKeepsFields(daoAppRole.rows, roleId, indata', {APP_ROLE_ID}, APP_ROLE_ID);
      }
      var updated := daoAppRole.Update(roleId, indata');
      match updated
      case Err(e) => data, err := map[], Some(e);
      case Ok(r) => data, err := r, None;
    }
  }
}

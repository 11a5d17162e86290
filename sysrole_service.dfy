/** The system role service. */
module SysRoleService {
  import opened Records
  import opened Repository

  class SysRoleBaseService {
    const daoSysRole: Dao

    predicate Valid() {
      daoSysRole.keyField == SYS_ROLE_ID
    }

    constructor (daoSysRole: Dao)
      requires daoSysRole.keyField == SYS_ROLE_ID
      ensures Valid() && this.daoSysRole == daoSysRole
    {
      this.daoSysRole := daoSysRole;
    }

    /** Create: the role id is lower-cased, or generated as "syrol_" and `guid`
        (the fresh `xid`), and written back. There is no duplicate check of
        its own: a clash is the store's error, returned with the request. */
    method Create(indata: Record, guid: string) returns (data: Record, err: Option<Error>, indata': Record)
      requires Valid()
      requires StrIfPresent(indata, SYS_ROLE_ID)
      modifies daoSysRole
      ensures var id := NewId(indata, SYS_ROLE_ID, "syrol_" + guid);
        && indata' == indata[SYS_ROLE_ID := Str(id)]
        && data == indata'
        && (id in old(daoSysRole.rows) ==> err == Some(Duplicate(SYS_ROLE_ID, id)) && daoSysRole.rows == old(daoSysRole.rows))
        && (id !in old(daoSysRole.rows) ==> err.None? && daoSysRole.rows == old(daoSysRole.rows)[id := indata'])
      ensures old(KeysAgree(daoSysRole.rows, SYS_ROLE_ID)) ==> KeysAgree(daoSysRole.rows, SYS_ROLE_ID)
    {
      var roleId := NewId(indata, SYS_ROLE_ID, "syrol_" + guid);
      indata' := indata[SYS_ROLE_ID := Str(roleId)];
      var created := daoSysRole.Create(indata');
      match created
      case Err(e) => data, err := indata', Some(e);
      case Ok(r) => data, err := r, None;
    }

    /** Update: the role id is deleted from the request, so no Update changes it. */
    method Update(roleId: string, indata: Record) returns (data: Record, err: Option<Error>, indata': Record)
      requires Valid()
      modifies daoSysRole
      ensures indata' == Strip(indata, {SYS_ROLE_ID})
      ensures roleId in old(daoSysRole.rows) ==>
                && err.None? && data == old(daoSysRole.rows)[roleId] + indata'
                && daoSysRole.rows == old(daoSysRole.rows)[roleId := data]
      ensures roleId !in old(daoSysRole.rows) ==>
                err == Some(NotFound(SYS_ROLE_ID, roleId)) && data == map[] && daoSysRole.rows == old(daoSysRole.rows)
      ensures FieldsKept(old(daoSysRole.rows), daoSysRole.rows, {SYS_ROLE_ID})
      ensures old(KeysAgree(daoSysRole.rows, SYS_ROLE_ID)) ==> KeysAgree(daoSysRole.rows, SYS_ROLE_ID)
    {
      indata' := Strip(indata, {SYS_ROLE_ID});
      if roleId in daoSysRole.rows {
        MergeKeepsFields(daoSysRole.rows, roleId, indata', {SYS_ROLE_ID}, SYS_ROLE_ID);
      }
      var updated := daoSysRole.Update(roleId, indata');
      match updated
      case Err(e) => data, err := map[], Some(e);
      case Ok(r) => data, err := r, None;
    }
  }
}

/** The invoice service of the `platform_services` package. */
module InvoicesService {
  import opened Records
  import opened Repository

  const ErrExists := Coded("S30102", "Existing Invoice ID !", "Given Invoice ID already exist")

  /** The fields Update never passes to the store. */
  const KeyFields: set<string> := {INVOICE_ID, BUSINESS_ID}

  class InvoiceBaseService {
    const daoInvoice: Dao
    /** `utils.GenerateUniqueId(prefix)`, for a fresh seed. */
    const uniqueId: (string, string) -> string

    predicate Valid() {
      daoInvoice.keyField == INVOICE_ID
    }

    constructor (daoInvoice: Dao, uniqueId: (string, string) -> string)
      requires daoInvoice.keyField == INVOICE_ID
      ensures Valid() && this.daoInvoice == daoInvoice && this.uniqueId == uniqueId
    {
      this.daoInvoice := daoInvoice;
      this.uniqueId := uniqueId;
    }

    /** Create: the id is lower-cased, or generated with the prefix "inice"
        from the fresh seed `guid`; it is written back before the
        duplicate check. The request is returned on every path. */
    method Create(indata: Record, guid: string) returns (data: Record, err: Option<Error>, indata': Record)
      requires Valid()
      requires StrIfPresent(indata, INVOICE_ID)
      modifies daoInvoice
      ensures var id := NewId(indata, INVOICE_ID, uniqueId("inice", guid));
        && indata' == indata[INVOICE_ID := Str(id)]
        && data == indata'
        && (id in old(daoInvoice.rows) ==> err == Some(ErrExists) && daoInvoice.rows == old(daoInvoice.rows))
        && (id !in old(daoInvoice.rows) ==> err.None? && daoInvoice.rows == old(daoInvoice.rows)[id := indata'])
      ensures old(KeysAgree(daoInvoice.rows, INVOICE_ID)) ==> KeysAgree(daoInvoice.rows, INVOICE_ID)
    {
      var id := NewId(indata, INVOICE_ID, uniqueId("inice", guid));
      indata' := indata;
      indata' := indata'[INVOICE_ID := Str(id)];
      data := indata';

      if daoInvoice.Get(id).Ok? {
        return data, Some(ErrExists), indata';
      }

      var created := daoInvoice.Create(indata');
      match created
      case Err(e) => err := Some(e);
      case Ok(_) => err := None;
    }

    /** Update: an unknown id is refused before the request is touched; then
        the id and the business id are deleted from the request, so no Update
        changes them. */
    method Update(id: string, indata: Record) returns (data: Record, err: Option<Error>, indata': Record)
      requires Valid()
      modifies daoInvoice
      ensures id !in old(daoInvoice.rows) ==>
                data == map[] && err == Some(NotFound(INVOICE_ID, id)) && indata' == indata
                && daoInvoice.rows == old(daoInvoice.rows)
      ensures id in old(daoInvoice.rows) ==>
                && indata' == Strip(indata, KeyFields)
                && err.None? && data == old(daoInvoice.rows)[id] + indata'
                && daoInvoice.rows == old(daoInvoice.rows)[id := data]
      ensures FieldsKept(old(daoInvoice.rows), daoInvoice.rows, KeyFields)
      ensures old(KeysAgree(daoInvoice.rows, INVOICE_ID)) ==> KeysAgree(daoInvoice.rows, INVOICE_ID)
    {
      var found := daoInvoice.Get(id);
      if found.Err? {
        return map[], Some(found.error), indata;
      }
      indata' := Strip(indata, KeyFields);
      MergeKeepsFields(daoInvoice.rows, id, indata', KeyFields, INVOICE_ID);
      var updated := daoInvoice.Update(id, indata');
      match updated
      case Err(e) => data, err := map[], Some(e);
      case Ok(r) => data, err := r, None;
    }

    /** Delete: a permanent delete removes the record; any other is an Update
        carrying only `is_deleted = true`, so an unknown id fails either way. */
    method Delete(id: string, deletePermanent: bool) returns (err: Option<Error>)
      requires Valid()
      modifies daoInvoice
      ensures id !in old(daoInvoice.rows) ==>
                err == Some(NotFound(INVOICE_ID, id)) && daoInvoice.rows == old(daoInvoice.rows)
      ensures id in old(daoInvoice.rows) ==>
                && err.None?
                && daoInvoice.rows == if deletePermanent then old(daoInvoice.rows) - {id}
                                 else old(daoInvoice.rows)[id := old(daoInvoice.rows)[id][IS_DELETED := Bool(true)]]
    {
      if deletePermanent {
        var removed := daoInvoice.Delete(id);
        match removed
        case Err(e) => err := Some(e);
        case Ok(_) => err := None;
      } else {
        var flag: Record := map[IS_DELETED := Bool(true)];
        assert Strip(flag, KeyFields) == flag;
        if id in daoInvoice.rows {
          assert daoInvoice.rows[id] + flag == daoInvoice.rows[id][IS_DELETED := Bool(true)];
        }
        var _, updateErr, _ := Update(id, flag);
        err := updateErr;
      }
    }
  }
}

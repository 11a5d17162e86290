/** The invoice service of the `platform_service` package. Unlike its
    namesake in `platform_services`, its Update passes the request to the
    store as given. */
module InvoiceService {
  import opened Records
  import opened Repository

  const ErrExists := Coded("S30102", "Existing Invoice ID !", "Given Invoice ID already exist")

  class InvoiceBaseService {
    const daoInvoice: Dao
    /** `utils.GenerateUniqueId(prefix)`, for a fresh seed. */
    const uniqueId: (string, string) -> string

    predicate Valid() {
      daoInvoice.keyField == INVOICE_ID
    }

    constructor (daoInvoice: Dao, uniqueId: (string, string) -> string)
      requires daoInvoice.keyField == INVOICE_ID
      ensures Valid() && this.daoInvoice == daoInvoice && this.uniqueId == uniqueId
    {
      this.daoInvoice := daoInvoice;
      this.uniqueId := uniqueId;
    }

    /** Create: the id is lower-cased, or generated with the prefix "inice_"
        from the fresh seed `guid`; it is written back before the duplicate
        check. The request is returned on every path. */
    method Create(indata: Record, guid: string) returns (data: Record, err: Option<Error>, indata': Record)
      requires Valid()
      requires StrIfPresent(indata, INVOICE_ID)
      modifies daoInvoice
      ensures var id := NewId(indata, INVOICE_ID, uniqueId("inice_", guid));
        && indata' == indata[INVOICE_ID := Str(id)]
        && data == indata'
        && (id in old(daoInvoice.rows) ==> err == Some(ErrExists) && daoInvoice.rows == old(daoInvoice.rows))
        && (id !in old(daoInvoice.rows) ==> err.None? && daoInvoice.rows == old(daoInvoice.rows)[id := indata'])
      ensures old(KeysAgree(daoInvoice.rows, INVOICE_ID)) ==> KeysAgree(daoInvoice.rows, INVOICE_ID)
    {
      var id := NewId(indata, INVOICE_ID, uniqueId("inice_", guid));
      indata' := indata[INVOICE_ID := Str(id)];
      data := indata';

      if daoInvoice.Get(id).Ok? {
        return data, Some(ErrExists), indata';
      }

      var created := daoInvoice.Create(indata');
      match created
      case Err(e) => err := Some(e);
      case Ok(_) => err := None;
    }

    /** Update: the request goes to the store unchanged, key fields included,
        with no existence check of its own. */
    method Update(invoiceId: string, indata: Record) returns (data: Record, err: Option<Error>)
      requires Valid()
      modifies daoInvoice
      ensures invoiceId in old(daoInvoice.rows) ==>
                && err.None? && data == old(daoInvoice.rows)[invoiceId] + indata
                && daoInvoice.rows == old(daoInvoice.rows)[invoiceId := data]
      ensures invoiceId !in old(daoInvoice.rows) ==>
                err == Some(NotFound(INVOICE_ID, invoiceId)) && data == map[]
                && daoInvoice.rows == old(daoInvoice.rows)
    {
      var updated := daoInvoice.Update(invoiceId, indata);
      match updated
      case Err(e) => data, err := map[], Some(e);
      case Ok(r) => data, err := r, None;
    }

    /** Delete: a permanent delete removes the record; any other is an Update
        carrying only `is_deleted = true`. */
    method Delete(invoiceId: string, deletePermanent: bool) returns (err: Option<Error>)
      requires Valid()
      modifies daoInvoice
      ensures invoiceId !in old(daoInvoice.rows) ==>
                err == Some(NotFound(INVOICE_ID, invoiceId)) && daoInvoice.rows == old(daoInvoice.rows)
      ensures invoiceId in old(daoInvoice.rows) ==>
                && err.None?
                && daoInvoice.rows == if deletePermanent then old(daoInvoice.rows) - {invoiceId}
                                      else old(daoInvoice.rows)[invoiceId := old(daoInvoice.rows)[invoiceId][IS_DELETED := Bool(true)]]
    {
      if deletePermanent {
        var removed := daoInvoice.Delete(invoiceId);
        match removed
        case Err(e) => err := Some(e);
        case Ok(_) => err := None;
      } else {
        var flag: Record := map[IS_DELETED := Bool(true)];
        if invoiceId in daoInvoice.rows {
          assert daoInvoice.rows[invoiceId] + flag == daoInvoice.rows[invoiceId][IS_DELETED := Bool(true)];
        }
        var _, updateErr := Update(invoiceId, flag);
        err := updateErr;
      }
    }
  }

  /** Because nothing is stripped, an Update can rewrite a stored invoice's
      own id: afterwards the record stored under "i1" says it is "i2". */
  method UpdateRewritesInvoiceId() returns (stored: map<string, Record>)
    ensures "i1" in stored && INVOICE_ID in stored["i1"] && stored["i1"][INVOICE_ID] == Str("i2")
    ensures !KeysAgree(stored, INVOICE_ID)
  {
    var dao := new Dao(INVOICE_ID, map["i1" := map[INVOICE_ID := Str("i1")]]);
    var svc := new InvoiceBaseService(dao, (prefix: string, seed: string) => prefix + seed);
    var data, err := svc.Update("i1", map[INVOICE_ID := Str("i2")]);
    stored := dao.rows;
  }
}

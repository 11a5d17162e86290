/** The payments service. */
module PaymentsService {
  import opened Records
  import opened Repository

  const ErrExists := Coded("S30102", "Existing Payments ID !", "Given Payments ID already exist")

  /** The fields Update never passes to the store. */
  const KeyFields: set<string> := {PAYMENT_ID, BUSINESS_ID}

  class PaymentsBaseService {
    const daoPayments: Dao
    /** `utils.GenerateUniqueId(prefix)`, for a fresh seed. */
    const uniqueId: (string, string) -> string

    predicate Valid() {
      daoPayments.keyField == PAYMENT_ID
    }

    constructor (daoPayments: Dao, uniqueId: (string, string) -> string)
      requires daoPayments.keyField == PAYMENT_ID
      ensures Valid() && this.daoPayments == daoPayments && this.uniqueId == uniqueId
    {
      this.daoPayments := daoPayments;
      this.uniqueId := uniqueId;
    }

    /** Create: the id is lower-cased, or generated with the prefix "pay"
        from the fresh seed `guid`; it is written back before the
        duplicate check. The request is returned on every path. */
    method Create(indata: Record, guid: string) returns (data: Record, err: Option<Error>, indata': Record)
      requires Valid()
      requires StrIfPresent(indata, PAYMENT_ID)
      modifies daoPayments
      ensures var id := NewId(indata, PAYMENT_ID, uniqueId("pay", guid));
        && indata' == indata[PAYMENT_ID := Str(id)]
        && data == indata'
        && (id in old(daoPayments.rows) ==> err == Some(ErrExists) && daoPayments.rows == old(daoPayments.rows))
        && (id !in old(daoPayments.rows) ==> err.None? && daoPayments.rows == old(daoPayments.rows)[id := indata'])
      ensures old(KeysAgree(daoPayments.rows, PAYMENT_ID)) ==> KeysAgree(daoPayments.rows, PAYMENT_ID)
    {
      var id := NewId(indata, PAYMENT_ID, uniqueId("pay", guid));
      indata' := indata;
      indata' := indata'[PAYMENT_ID := Str(id)];
      data := indata';

      if daoPayments.Get(id).Ok? {
        return data, Some(ErrExists), indata';
      }

      var created := daoPayments.Create(indata');
      match created
      case Err(e) => err := Some(e);
      case Ok(_) => err := None;
    }

    /** Update: an unknown id is refused before the request is touched; then
        the id and the business id are deleted from the request, so no Update
        changes them. */
    method Update(id: string, indata: Record) returns (data: Record, err: Option<Error>, indata': Record)
      requires Valid()
      modifies daoPayments
      ensures id !in old(daoPayments.rows) ==>
                data == map[] && err == Some(NotFound(PAYMENT_ID, id)) && indata' == indata
                && daoPayments.rows == old(daoPayments.rows)
      ensures id in old(daoPayments.rows) ==>
                && indata' == Strip(indata, KeyFields)
                && err.None? && data == old(daoPayments.rows)[id] + indata'
                && daoPayments.rows == old(daoPayments.rows)[id := data]
      ensures FieldsKept(old(daoPayments.rows), daoPayments.rows, KeyFields)
      ensures old(KeysAgree(daoPayments.rows, PAYMENT_ID)) ==> KeysAgree(daoPayments.rows, PAYMENT_ID)
    {
      var found := daoPayments.Get(id);
      if found.Err? {
        return map[], Some(found.error), indata;
      }
      indata' := Strip(indata, KeyFields);
      MergeKeepsFields(daoPayments.rows, id, indata', KeyFields, PAYMENT_ID);
      var updated := daoPayments.Update(id, indata');
      match updated
      case Err(e) => data, err := map[], Some(e);
      case Ok(r) => data, err := r, None;
    }

    /** Delete: a permanent delete removes the record; any other is an Update
        carrying only `is_deleted = true`, so an unknown id fails either way. */
    method Delete(id: string, deletePermanent: bool) returns (err: Option<Error>)
      requires Valid()
      modifies daoPayments
      ensures id !in old(daoPayments.rows) ==>
                err == Some(NotFound(PAYMENT_ID, id)) && daoPayments.rows == old(daoPayments.rows)
      ensures id in old(daoPayments.rows) ==>
                && err.None?
                && daoPayments.rows == if deletePermanent then old(daoPayments.rows) - {id}
                                 else old(daoPayments.rows)[id := old(daoPayments.rows)[id][IS_DELETED := Bool(true)]]
    {
      if deletePermanent {
        var removed := daoPayments.Delete(id);
        match removed
        case Err(e) => err := Some(e);
        case Ok(_) => err := None;
      } else {
        var flag: Record := map[IS_DELETED := Bool(true)];
        assert Strip(flag, KeyFields) == flag;
        if id in daoPayments.rows {
          assert daoPayments.rows[id] + flag == daoPayments.rows[id][IS_DELETED := Bool(true)];
        }
        var _, updateErr, _ := Update(id, flag);
        err := updateErr;
      }
    }
  }
}

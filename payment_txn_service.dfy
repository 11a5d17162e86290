/** The payment transaction service. */
module PaymentTxnService {
  import opened Records
  import opened Repository

  const ErrExists := Coded("S30102", "Existing PaymentTxn ID !", "Given PaymentTxn ID already exist")

  /** The fields Update never passes to the store. */
  const KeyFields: set<string> := {PAYMENT_TXN_ID, BUSINESS_ID}

  class PaymentTxnBaseService {
    const daoPaymentTxn: Dao
    /** `utils.GenerateUniqueId(prefix)`, for a fresh seed. */
    const uniqueId: (string, string) -> string

    predicate Valid() {
      daoPaymentTxn.keyField == PAYMENT_TXN_ID
    }

    constructor (daoPaymentTxn: Dao, uniqueId: (string, string) -> string)
      requires daoPaymentTxn.keyField == PAYMENT_TXN_ID
      ensures Valid() && this.daoPaymentTxn == daoPaymentTxn && this.uniqueId == uniqueId
    {
      this.daoPaymentTxn := daoPaymentTxn;
      this.uniqueId := uniqueId;
    }

    /** Create: the id is lower-cased, or generated with the prefix "pay_txn"
        from the fresh seed `guid`; it is written back together with the current time `now` under `date_time`, before the
        duplicate check. The request is returned on every path. */
    method Create(indata: Record, guid: string, now: string) returns (data: Record, err: Option<Error>, indata': Record)
      requires Valid()
      requires StrIfPresent(indata, PAYMENT_TXN_ID)
      modifies daoPaymentTxn
      ensures var id := NewId(indata, PAYMENT_TXN_ID, uniqueId("pay_txn", guid));
        && indata' == indata[DATE_TIME := Str(now)][PAYMENT_TXN_ID := Str(id)]
        && data == indata'
        && (id in old(daoPaymentTxn.rows) ==> err == Some(ErrExists) && daoPaymentTxn.rows == old(daoPaymentTxn.rows))
        && (id !in old(daoPaymentTxn.rows) ==> err.None? && daoPaymentTxn.rows == old(daoPaymentTxn.rows)[id := indata'])
      ensures old(KeysAgree(daoPaymentTxn.rows, PAYMENT_TXN_ID)) ==> KeysAgree(daoPaymentTxn.rows, PAYMENT_TXN_ID)
    {
      var id := NewId(indata, PAYMENT_TXN_ID, uniqueId("pay_txn", guid));
      indata' := indata[DATE_TIME := Str(now)];
      indata' := indata'[PAYMENT_TXN_ID := Str(id)];
      data := indata';

      if daoPaymentTxn.Get(id).Ok? {
        return data, Some(ErrExists), indata';
      }

      var created := daoPaymentTxn.Create(indata');
      match created
      case Err(e) => err := Some(e);
      case Ok(_) => err := None;
    }

    /** Update: an unknown id is refused before the request is touched; then
        the id and the business id are deleted from the request, so no Update
        changes them. */
    method Update(id: string, indata: Record) returns (data: Record, err: Option<Error>, indata': Record)
      requires Valid()
      modifies daoPaymentTxn
      ensures id !in old(daoPaymentTxn.rows) ==>
                data == map[] && err == Some(NotFound(PAYMENT_TXN_ID, id)) && indata' == indata
                && daoPaymentTxn.rows == old(daoPaymentTxn.rows)
      ensures id in old(daoPaymentTxn.rows) ==>
                && indata' == Strip(indata, KeyFields)
                && err.None? && data == old(daoPaymentTxn.rows)[id] + indata'
                && daoPaymentTxn.rows == old(daoPaymentTxn.rows)[id := data]
      ensures FieldsKept(old(daoPaymentTxn.rows), daoPaymentTxn.rows, KeyFields)
      ensures old(KeysAgree(daoPaymentTxn.rows, PAYMENT_TXN_ID)) ==> KeysAgree(daoPaymentTxn.rows, PAYMENT_TXN_ID)
    {
      var found := daoPaymentTxn.Get(id);
      if found.Err? {
        return map[], Some(found.error), indata;
      }
      indata' := Strip(indata, KeyFields);
      MergeKeepsFields(daoPaymentTxn.rows, id, indata', KeyFields, PAYMENT_TXN_ID);
      var updated := daoPaymentTxn.Update(id, indata');
      match updated
      case Err(e) => data, err := map[], Some(e);
      case Ok(r) => data, err := r, None;
    }

    /** Delete: a permanent delete removes the record; any other is an Update
        carrying only `is_deleted = true`, so an unknown id fails either way. */
    method Delete(id: string, deletePermanent: bool) returns (err: Option<Error>)
      requires Valid()
      modifies daoPaymentTxn
      ensures id !in old(daoPaymentTxn.rows) ==>
                err == Some(NotFound(PAYMENT_TXN_ID, id)) && daoPaymentTxn.rows == old(daoPaymentTxn.rows)
      ensures id in old(daoPaymentTxn.rows) ==>
                && err.None?
                && daoPaymentTxn.rows == if deletePermanent then old(daoPaymentTxn.rows) - {id}
                                 else old(daoPaymentTxn.rows)[id := old(daoPaymentTxn.rows)[id][IS_DELETED := Bool(true)]]
    {
      if deletePermanent {
        var removed := daoPaymentTxn.Delete(id);
        match removed
        case Err(e) => err := Some(e);
        case Ok(_) => err := None;
      } else {
        var flag: Record := map[IS_DELETED := Bool(true)];
        assert Strip(flag, KeyFields) == flag;
        if id in daoPaymentTxn.rows {
          assert daoPaymentTxn.rows[id] + flag == daoPaymentTxn.rows[id][IS_DELETED := Bool(true)];
        }
        var _, updateErr, _ := Update(id, flag);
        err := updateErr;
      }
    }
  }
}

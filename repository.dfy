/** The data-access objects the services delegate to. Their implementation is
    not part of this model; each is abstracted as one table: a map from the
    record's key field to the record. */
module Repository {
  import opened Records

  /** A DAO over one collection. `Create` inserts a record under the value of
      its key field, `Update` merges the given fields into the stored record
      (a field-wise set), `Delete` removes the record; each refuses a key it
      cannot use. */
  class Dao {
    const keyField: string
    var rows: map<string, Record>

    constructor (keyField: string, rows: map<string, Record>)
      ensures this.keyField == keyField && this.rows == rows
    {
      this.keyField := keyField;
      this.rows := rows;
    }

    /** `Get(id)`: the stored record, or the DAO's not-found error. */
    function Get(id: string): Result<Record>
      reads this
    {
      if id in rows then Ok(rows[id]) else Err(NotFound(keyField, id))
    }

    method Create(indata: Record) returns (r: Result<Record>)
      modifies this
      ensures GetStr(indata, keyField).None? ==>
                r == Err(MissingMember(keyField)) && rows == old(rows)
      ensures GetStr(indata, keyField).Some? ==>
                var key := indata[keyField].s;
                if key in old(rows) then r == Err(Duplicate(keyField, key)) && rows == old(rows)
                else r == Ok(indata) && rows == old(rows)[key := indata]
    {
      match GetStr(indata, keyField)
      case None =>
        r := Err(MissingMember(keyField));
      case Some(key) =>
        if key in rows {
          r := Err(Duplicate(keyField, key));
        } else {
          rows := rows[key := indata];
          r := Ok(indata);
        }
    }

    method Update(id: string, patch: Record) returns (r: Result<Record>)
      modifies this
      ensures id in old(rows) ==>
                r == Ok(old(rows)[id] + patch) && rows == old(rows)[id := old(rows)[id] + patch]
      ensures id !in old(rows) ==> r == Err(NotFound(keyField, id)) && rows == old(rows)
    {
      if id in rows {
        var merged := rows[id] + patch;
        rows := rows[id := merged];
        r := Ok(merged);
      } else {
        r := Err(NotFound(keyField, id));
      }
    }

    method Delete(id: string) returns (r: Result<int>)
      modifies this
      ensures id in old(rows) ==> r == Ok(1) && rows == old(rows) - {id}
      ensures id !in old(rows) ==> r == Err(NotFound(keyField, id)) && rows == old(rows)
    {
      if id in rows {
        rows := rows - {id};
        r := Ok(1);
      } else {
        r := Err(NotFound(keyField, id));
      }
    }

    /** Insert or replace a record under its key field (the store side of
        `GrantPermission`). */
    method Put(indata: Record) returns (r: Result<Record>)
      modifies this
      ensures GetStr(indata, keyField).None? ==>
                r == Err(MissingMember(keyField)) && rows == old(rows)
      ensures GetStr(indata, keyField).Some? ==>
                r == Ok(indata) && rows == old(rows)[indata[keyField].s := indata]
    {
      match GetStr(indata, keyField)
      case None =>
        r := Err(MissingMember(keyField));
      case Some(key) =>
        rows := rows[key := indata];
        r := Ok(indata);
    }
  }

  /** Every record is stored under the value of its own key field. */
  ghost predicate KeysAgree(rows: map<string, Record>, keyField: string) {
    forall k :: k in rows ==> keyField in rows[k] && rows[k][keyField] == Str(k)
  }

  /** No stored record changed any of the given fields, and no record appeared
      or vanished. */
  ghost predicate FieldsKept(before: map<string, Record>, after: map<string, Record>, fields: set<string>) {
    && before.Keys == after.Keys
    && forall k, f :: k in before && f in fields ==>
         (f in before[k] <==> f in after[k]) && (f in before[k] ==> before[k][f] == after[k][f])
  }

  /** Merging a patch that leaves out the given fields keeps those fields of
      every record, and keeps every record under its own key when the key field
      is among them. */
  lemma MergeKeepsFields(rows: map<string, Record>, id: string, patch: Record, fields: set<string>, keyField: string)
    requires id in rows
    requires patch.Keys !! fields
    ensures FieldsKept(rows, rows[id := rows[id] + patch], fields)
    ensures keyField in fields && KeysAgree(rows, keyField) ==>
              KeysAgree(rows[id := rows[id] + patch], keyField)
  {
  }
}

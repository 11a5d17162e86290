/** Property bags (`utils.Map`), the values they hold, the errors the services
    return, and the small helpers every service uses on them: typed member
    access, lower-casing of identifiers, and id normalisation on Create. */
module Records {

  /** A value stored under a field of a property bag. `Rec` is a nested bag
      (a business record attached to a list entry, for one). */
  datatype Value = Str(s: string) | Int(i: int) | Bool(b: bool) | Rec(fields: map<string, Value>)

  /** A property bag: a record of the store, a request body, a connection descriptor. */
  type Record = map<string, Value>

  datatype Option<T> = None | Some(value: T)

  /** The errors the services hand back. `AppError` is `utils.AppError`
      (status, code, message, detail; an unset status is 0); the other
      constructors stand for error values made by code outside this model. */
  datatype Error =
    | AppError(status: int, code: string, msg: string, detail: string)
    | NotFound(collection: string, key: string)
    | Duplicate(collection: string, key: string)
    | MissingMember(field: string)
    | ConnectionRefused(reason: string)

  datatype Result<T> = Ok(value: T) | Err(error: Error)

  /** An `AppError` that sets only the code (status left at 0). */
  function Coded(code: string, msg: string, detail: string): Error {
    AppError(0, code, msg, detail)
  }

  // Field names. Their values live in a package that is not part of this
  // model; the names below are chosen so that distinct fields are distinct.
  const BUSINESS_ID := "business_id"
  const BUSINESS_REGION_ID := "region_id"
  const BUSINESS_IS_TENANT_DB := "is_tenant_db"
  const BUSINESS_USER_ID := "business_user_id"
  const REGION_ID := "region_id"
  const REGION_NAME := "region_name"
  const REGION_DB_TYPE := "region_db_type"
  const REGION_DB_SERVER := "mongodb_server"
  const REGION_DB_USER := "mongodb_user"
  const REGION_DB_SECRET := "mongodb_secret"
  const REGION_DB_NAME := "mongodb_name"
  const APP_USER_ID := "app_user_id"
  const APP_USER_PASSWORD := "password"
  const APP_BUSINESS := "app_business"
  const SYS_USER_ID := "sys_user_id"
  const SYS_USER_PASSWORD := "password"
  const SYS_ROLE_ID := "sys_role_id"
  const SYS_ACCESS_ID := "sys_access_id"
  const APP_SITE_ID := "app_site_id"
  const APP_DEPT_ID := "app_dept_id"
  const APP_ROLE_ID := "app_role_id"
  const CLIENT_ID := "client_id"
  const CLIENT_SECRET := "client_secret"
  const CLIENT_TYPE := "app_client_type"
  const SETTING_ID := "app_setting_id"
  const PAYMENT_TXN_ID := "payment_txn_id"
  const PAYMENT_ID := "payment_id"
  const INVOICE_ID := "invoice_id"
  const DATE_TIME := "date_time"
  const IS_DELETED := "is_deleted"
  const IS_SUSPENDED := "is_suspended"

  /** The prefix returned by `GetServiceModuleCode()` (a constant of code
      outside this model; only its use as a prefix matters here). */
  const SERVICE_MODULE_CODE := "MC"

  /** `utils.GetMemberDataStr`: the member as a string, or nothing when it is
      absent or not a string. */
  function GetStr(m: Record, field: string): (r: Option<string>)
    ensures r.Some? <==> field in m && m[field].Str?
    ensures r.Some? ==> m[field] == Str(r.value)
  {
    if field in m && m[field].Str? then Some(m[field].s) else None
  }

  /** `utils.GetMemberDataBool`. */
  function GetBool(m: Record, field: string): (r: Option<bool>)
    ensures r.Some? <==> field in m && m[field].Bool?
    ensures r.Some? ==> m[field] == Bool(r.value)
  {
    if field in m && m[field].Bool? then Some(m[field].b) else None
  }

  /** `utils.GetMemberDataInt`. */
  function GetInt(m: Record, field: string): (r: Option<int>)
    ensures r.Some? <==> field in m && m[field].Int?
    ensures r.Some? ==> m[field] == Int(r.value)
  {
    if field in m && m[field].Int? then Some(m[field].i) else None
  }

  /** A Go `x.(string)` on a present member would panic unless the member is a
      string; callers of such code must supply one. */
  predicate StrIfPresent(m: Record, field: string) {
    field in m ==> m[field].Str?
  }

  predicate BoolIfPresent(m: Record, field: string) {
    field in m ==> m[field].Bool?
  }

  function LowerChar(c: char): char {
    if 'A' <= c <= 'Z' then (c as int + 32) as char else c
  }

  /** `strings.ToLower`, restricted to ASCII letters. */
  function Lower(s: string): (r: string)
    ensures |r| == |s|
    ensures forall i :: 0 <= i < |s| ==> r[i] == LowerChar(s[i])
  {
    if s == [] then [] else [LowerChar(s[0])] + Lower(s[1..])
  }

  predicate IsLower(s: string) {
    forall i :: 0 <= i < |s| ==> !('A' <= s[i] <= 'Z')
  }

  /** Lower-casing an id twice is lower-casing it once. */
  lemma LowerIdempotent(s: string)
    ensures Lower(Lower(s)) == Lower(s)
  {
  }

  /** The id a Create stores: a supplied id, lower-cased, or else the freshly
      generated one. The supplied member must be a string. */
  function NewId(indata: Record, field: string, generated: string): (id: string)
    requires StrIfPresent(indata, field)
    ensures field in indata ==> id == Lower(indata[field].s) && IsLower(id)
    ensures field !in indata ==> id == generated
  {
    if field in indata then Lower(indata[field].s) else generated
  }

  /** Normalising an id that a Create wrote back gives the same id again, so a
      bag returned by Create can be sent to Create again unchanged (provided
      generated ids are lower-case, as `xid` strings are). */
  lemma NewIdStable(indata: Record, field: string, generated: string, generated': string)
    requires StrIfPresent(indata, field)
    requires IsLower(generated)
    ensures var id := NewId(indata, field, generated);
            NewId(indata[field := Str(id)], field, generated') == id
  {
  }

  /** The bag with the given key fields deleted (Go's `delete(indata, k)`). */
  function Strip(indata: Record, fields: set<string>): (r: Record)
    ensures r.Keys == indata.Keys - fields
    ensures forall f :: f in r ==> r[f] == indata[f]
  {
    indata - fields
  }
}

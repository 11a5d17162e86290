# Platform services: tenant database resolution and entity rules

This project models the platform service layer of a multi-tenant SaaS
backend. Two parts are modelled:

- **Tenant database resolution.** From a request's property bag, the
  resolver finds the connection descriptor of the database that holds one
  business's data. It goes through the business directory and the region
  directory of the platform database. A business flagged `is_tenant_db` gets
  a database of its own, named after its region's database plus `-` plus
  the business id. Every other business shares its region's database. The
  platform connection the resolver opens is closed on every path.
- **The entity services.** Businesses, regions, system access grants, API
  clients, app users, system users, settings, payment transactions, payments,
  invoices (two packages), and system and app roles. Each service:
  - normalises the caller's request in place (lower-cased or generated ids,
    hashed passwords, stripped key fields);
  - checks the store, in a fixed order with one error code per check;
  - then delegates to a data-access object (DAO).

The model is imperative where the services are:

- Each service is a class whose DAOs are `Repository.Dao` objects. A DAO
  holds one table: a map from the record's key to the record. Records are
  maps from field names to a small `Value` datatype.
- A request the Go code mutates is returned as an extra out-parameter
  `indata'`, holding its final contents.
- Go's `(data, err)` results become `(data, err: Option<Error>)`.
- The database connection manager is a `Connections.Connector` that logs
  every open and close. Connection balance is stated as
  `OpenHandles(log)`: opens minus closes.

The resolver's decision logic is also stated as a pure function,
`TenantDb.ResolveTenantDb`, of the request and the two directories. The
imperative `GetRegionAndTenantDbInfo` is proved to return exactly what that
function gives, and to leave the connection log balanced.

Assumptions about code outside this model:

- **DAO behaviour.**
  - `Create` inserts under the record's key field. It refuses a missing
    key with `MissingMember` and a taken key with `Duplicate`.
  - `Update` merges the patch into the stored record field by field. It
    refuses an unknown key with `NotFound`.
  - `Delete` removes the record and reports 1. It refuses an unknown key.
  - The grant-permission store call replaces the record under its key.
  - The clients and settings services return the string their store's
    `Create` gives back. The model takes it to be the created record's id.
- **Foreign helpers.** `utils.SHA`, `utils.GetMD5Hash`,
  `utils.GenerateChecksumId`, `utils.GenerateUniqueId`, the DAO credential
  lookups and the DAO business listing are uninterpreted functions. Each is
  held in a `const` of the class that uses it.
- **Parameters.** The fresh `xid` and the current time come in as method
  parameters (`guid`, `now`).
- **Field names.** The `platform_common` and `db_common` field-name
  constants, and the value of `GetServiceModuleCode()`, are defined outside
  this model. `Records` gives them placeholder values. Two pairs share a
  value: the business's region id and the region's id are both
  `region_id`, and the app user and system user password fields are both
  `password`. Every other pair of field names stays distinct.

## Model

| member | source | states |
|---|---|---|
| TenantDb.ResolveTenantDb | platform_service/db_service.go:24-93 | Resolution outcomes. No `business_id` string: the request itself. Unknown business: `Invalid business_id` with code `MCM0101`; no region lookup follows. Business without a region-id string: missing member. Unknown region: the store's not-found. Success: a descriptor with exactly the keys db type, server, user, secret, name and `business_id`. `business_id` is the input id. Missing region fields default to zero values. The name is `<region database name>-<id>` exactly when `is_tenant_db` is true; otherwise it is the region's database name. |
| TenantDb.ResolveIsFixpoint | platform_service/db_service.go:84-93 | A resolved descriptor carries its business id, so resolving it again against the same directories gives it back. |
| TenantDb.TenantDatabasesDistinct | platform_service/db_service.go:75-81 | Two different businesses of one region, both flagged `is_tenant_db`, never get the same database name. |
| TenantDb.SharedDatabaseWithoutFlag | platform_service/db_service.go:75-81 | A business whose flag is false or missing uses the region's database name unchanged. |
| TenantDb.GetRegionAndTenantDbInfo | platform_service/db_service.go:24-95 | No business id: returns the request and opens nothing. A refused open: returns the open error with an empty map. Otherwise: exactly one open and one close, and the result of `ResolveTenantDb` on the current directories. Opens and closes always balance. |
| TenantDb.OpenRegionDatabaseService | platform_service/db_service.go:13-22 | Opens the resolved descriptor only when resolution succeeded. A resolution error comes back unchanged, and nothing further is opened. |
| Connections.OpenThenClose | platform_service/db_service.go:38-43 | An open followed by its deferred close leaves the count of open connections unchanged. |
| Records.NewId | platform_service/business_service.go:134-148 | Id normalisation on Create: a supplied id is lower-cased; an absent one is the generated id. |
| Records.NewIdStable | platform_service/business_service.go:134-148 | Normalising the written-back id again gives the same id, whatever seed is used the second time. |
| Records.LowerIdempotent | platform_service/business_service.go:137 | Lower-casing twice is lower-casing once (ASCII case mapping). |
| BusinessService.BusinessBaseService.Create | platform_service/business_service.go:129-173 | The id is normalised (prefix `biz_`) and written back. An existing id fails with S3030201 before any region check. Then a missing region fails with S3030202 and an unknown region with S3030203. The store insert happens exactly when all three checks pass. The region id must be a string only once the business id is known to be new. |
| BusinessService.BusinessBaseService.Update | platform_service/business_service.go:176-190 | `business_id`, `region_id` and `is_tenant_db` are stripped. No stored record's values for them change, and the table stays keyed by its ids. |
| BusinessService.BusinessBaseService.ValidateKeyExist | platform_service/business_service.go:335-342 | The stored record, or 400 "BusinessId not found". |
| BusinessService.BusinessBaseService.Delete | platform_service/business_service.go:192-219 | An unknown business fails with 400 and changes nothing. A permanent delete removes the record. Any other delete sets exactly `is_deleted = true`. |
| BusinessService.BusinessBaseService.AddUser | platform_service/business_service.go:221-248 | Both the business and the user must exist. The access record is stored under `md5(businessId + "_" + userId)` with `is_deleted = true`. |
| BusinessService.BusinessBaseService.RemoveUser | platform_service/business_service.go:250-279 | The same checks and the same derived key. The record under that key is removed, and only if it exists. |
| BusinessService.BusinessBaseService.GetUserDetails | platform_service/business_service.go:281-302 | The same checks and the same derived key; returns the record under it. |
| BusinessService.AccessRoundTrip | platform_service/business_service.go:221-302 | What AddUser stores, GetUserDetails finds and RemoveUser removes: the three agree on the key, and the access table ends where it began. |
| RegionService.ValidateCreate | platform_service/region_service.go:183-196 | Corrected check: region id, then name, then db type must be present strings. Only the first one missing is reported, with S30102. |
| RegionService.ValidateCreateAsWritten | platform_service/region_service.go:183-196 | As written, no request is ever refused (see Findings). |
| RegionService.MissingNamePassesAsWritten | platform_service/region_service.go:183-196 | A region without a name passes the as-written check; the corrected check refuses it. |
| RegionService.RegionBaseService.Create | platform_service/region_service.go:94-123 | As written. Requires the region id to be a present string. Validation never refuses, so the lower-cased id is always written back. An existing id then fails with "Existing Region ID !". Any other request is stored, even one without a name or db type. A created region is returned as re-read from the store. |
| RegionService.RegionBaseService.CreateCorrected | platform_service/region_service.go:94-123 | With the intended validation. An invalid request gets that validation's error and is refused before the id is written back. Everything after validation is as in Create. |
| RegionService.RegionBaseService.Insert | platform_service/region_service.go:110-122 | The duplicate check, the insert and the read-back. An existing id fails and changes nothing. A new id stores the request under it. |
| RegionService.NamelessRegionStoredAsWritten | platform_service/region_service.go:94-123 | On an empty table, Create stores `{region_id: "R1", region_db_type: "1"}`, which has no name, under `r1` without an error. |
| RegionService.RegionBaseService.ValidateKeyExist | platform_service/region_service.go:173-181 | The stored record, or 400 "Region not found". |
| RegionService.RegionBaseService.Update | platform_service/region_service.go:126-143 | An unknown region fails with 400 before the request is touched. Otherwise `region_id` is stripped and never changes. |
| RegionService.RegionBaseService.Delete | platform_service/region_service.go:145-171 | Existence is checked first. A soft delete sets exactly `is_deleted = true`. |
| SysAccessService.BuildAccessKey | platform_service/sysaccess_service.go:129-173 | Each part must be a string only once the checks before it have passed. The successive reassignments of the key equal the closed form `GrantKey`: user (`…01` if missing, `…02` if unknown), then role (`…03`, `…04`), then site and department (`…04` if unknown). Each absent optional part puts a `-` in front; each present one appends its id, site before department. |
| SysAccessService.GrantKeyShapes | platform_service/sysaccess_service.go:129-173 | With site and department present the key is user+site+department; with both absent it is `--` + user. |
| SysAccessService.SysAccessBaseService.GrantPermission | platform_service/sysaccess_service.go:123-186 | A failed check returns the request and its error, and writes nothing. Otherwise the access id is `checksum("aces", key)`. If no record can be read under that id, the read's error comes back and nothing is written. If one can, the request with the id set is stored under it. |
| SysAccessService.NewSysAccessServiceAsWritten | platform_service/sysaccess_service.go:42-78 | Without `business_id`: the connection is closed and an error returned. Unknown business: error `MCM0101` "Invalid sys_business_id", with the connection left open (one more open than close). |
| SysAccessService.NewSysAccessService | platform_service/sysaccess_service.go:42-78 | Corrected gate: the same outcomes, and every failed construction leaves opens and closes balanced. |
| ClientsService.ClientsBaseService.Create | platform_service/clients_service.go:92-135 | Checks in the order id (S3040101, returns ""), duplicate (S3040102, returns the id), secret (S3040103), type (S3040104). The id is stored as given, not lower-cased. A created client has `is_suspended = false`. |
| ClientsService.ClientsBaseService.Update | platform_service/clients_service.go:138-149 | `client_id` is stripped and never changes. |
| ClientsService.ClientsBaseService.Delete | platform_service/clients_service.go:152-163 | Removes the client, or returns the store's error. |
| ClientsService.ClientsBaseService.Authenticate | platform_service/clients_service.go:166-183 | A lookup miss gives S30340101. A client whose `is_suspended` is true gives S30340102. Any other found client is returned. Success holds exactly when the client is found and not suspended. |
| Accounts.HashIfPresent | platform_service/appuser_service.go:122-125 | A present password is replaced by its hash. No password member is added, and nothing else changes. |
| Accounts.UserLogin | platform_service/appuser_service.go:189-198 | Credential miss and suspended user give distinct errors. A missing or ill-typed suspension flag does not block. |
| AppUserService.Enriched | platform_service/appuser_service.go:233-240 | The enriched listing has the same length and order. Each entry whose business exists gains `app_business`; every other entry is unchanged. |
| AppUserService.EnrichedKeepsEntries | platform_service/appuser_service.go:233-240 | Enrichment keeps every member an entry had, including its business id, and adds at most `app_business`. |
| AppUserService.AppUserBaseService.Create | platform_service/appuser_service.go:102-133 | The id is normalised (prefix `user_`) and written back. A present password is stored hashed. |
| AppUserService.AppUserBaseService.Update | platform_service/appuser_service.go:136-152 | `app_user_id` is stripped and a supplied password is hashed. The id never changes. |
| AppUserService.AppUserBaseService.Delete | platform_service/appuser_service.go:155-177 | No existence check of its own. A soft delete is an Update with exactly `is_deleted = true`. |
| AppUserService.AppUserBaseService.Authenticate | platform_service/appuser_service.go:180-207 | The lookup uses the hashed password. Credential miss gives S30340101; suspended gives S30340102. Success holds exactly when the user is found and not suspended. |
| AppUserService.AppUserBaseService.ChangePassword | platform_service/appuser_service.go:210-220 | Exactly one field changes: the password becomes the hash of the new one. |
| AppUserService.AppUserBaseService.BusinessList | platform_service/appuser_service.go:222-245 | The user must exist, or the user lookup's error comes back. Entries must carry string business ids only when the user is known. The loop's result is `Enriched(listing, businesses)`. A listing error comes back unchanged. |
| SysUserService.SysUserBaseService.Create | platform_service/sysuser_service.go:99-130 | The id is normalised (prefix `syusr_`) and written back. A present password is stored hashed. |
| SysUserService.SysUserBaseService.Update | platform_service/sysuser_service.go:133-144 | `sys_user_id` is stripped. A supplied password passes through unhashed. |
| SysUserService.SysUserBaseService.Delete | platform_service/sysuser_service.go:147-168 | A soft delete is an Update with exactly `is_deleted = true`. |
| SysUserService.SysUserBaseService.Authenticate | platform_service/sysuser_service.go:171-198 | Credential miss gives S30340101; suspended gives S30340102. Otherwise the record is returned. |
| SysUserService.SysUserBaseService.ChangePassword | platform_service/sysuser_service.go:201-211 | Exactly one field changes: the hashed new password. |
| SettingService.SettingBaseService.Create | platform_service/setting_service.go:93-119 | A missing id gives S3040101 and "". The duplicate check uses the lower-cased id: an existing one gives S3040102 and that id. The request is stored as given, under the id as given. |
| SettingService.SettingBaseService.Update | platform_service/setting_service.go:122-133 | `app_setting_id` is stripped and never changes. |
| SettingService.SettingBaseService.Delete | platform_service/setting_service.go:136-147 | Removes the setting, or returns the store's error. |
| PaymentTxnService.PaymentTxnBaseService.Create | platform_service/payment_txn_service.go:97-127 | The id is normalised (generated with `pay_txn`). It and `date_time` are written back. A duplicate gives "Existing PaymentTxn ID !". The mutated request is returned on every path. |
| PaymentTxnService.PaymentTxnBaseService.Update | platform_service/payment_txn_service.go:130-146 | An unknown id returns the read's error. Otherwise the id and `business_id` are stripped. |
| PaymentTxnService.PaymentTxnBaseService.Delete | platform_service/payment_txn_service.go:149-171 | A soft delete goes through Update, so an unknown id fails either way. |
| PaymentsService.PaymentsBaseService.Create | platform_service/payments_service.go:96-124 | The id is normalised (generated with `pay`) and written back. A duplicate gives "Existing Payments ID !". The mutated request is returned. |
| PaymentsService.PaymentsBaseService.Update | platform_service/payments_service.go:127-143 | Existence is required; the id and `business_id` are stripped. |
| PaymentsService.PaymentsBaseService.Delete | platform_service/payments_service.go:146-168 | A soft delete is an Update with exactly `is_deleted = true`. |
| InvoicesService.InvoiceBaseService.Create | platform_services/invoice_service.go:96-124 | The id is normalised (generated with `inice`) and written back. A duplicate gives "Existing Invoice ID !". The mutated request is returned. |
| InvoicesService.InvoiceBaseService.Update | platform_services/invoice_service.go:127-143 | Existence is required; the id and `business_id` are stripped. |
| InvoicesService.InvoiceBaseService.Delete | platform_services/invoice_service.go:146-168 | A soft delete is an Update with exactly `is_deleted = true`. |
| InvoiceService.InvoiceBaseService.Create | platform_service/invoice_service.go:94-122 | The id is normalised (generated with `inice_`) and written back. A duplicate gives "Existing Invoice ID !". |
| InvoiceService.InvoiceBaseService.Update | platform_service/invoice_service.go:125-133 | The request goes to the store unmodified, with no existence check of its own. |
| InvoiceService.InvoiceBaseService.Delete | platform_service/invoice_service.go:136-158 | A soft delete is an Update with exactly `is_deleted = true`. |
| InvoiceService.UpdateRewritesInvoiceId | platform_service/invoice_service.go:125-133 | Because this Update strips nothing, it can rewrite a stored invoice's own id, leaving the table keyed inconsistently. |
| SysRoleService.SysRoleBaseService.Create | platform_service/sysrole_service.go:103-129 | The id is normalised (prefix `syrol_`) and written back. A store failure returns the mutated request with the error; success returns the store's result. |
| SysRoleService.SysRoleBaseService.Update | platform_service/sysrole_service.go:132-143 | `sys_role_id` is stripped and never changes. |
| AppRoleService.AppRoleBaseService.Create | platform_service/approle_service.go:102-127 | The id is normalised (prefix `role_`) and written back. A store failure returns the mutated request with the error. |
| AppRoleService.AppRoleBaseService.Update | platform_service/approle_service.go:130-141 | `app_role_id` is stripped and never changes. |

## Left out

- **DAO internals.** The DAO implementations are not part of this model; the
  table semantics above are assumptions. Filters, sorting, skip/limit and the
  store's own id generation are not modelled.
- **Pass-through methods.** `List`, `Get`, `Find`,
  `GetBusinessList`, `AddCredentials`, `GetCredentials`, `FindCredential`,
  `AddUsers`, `FindUser`, `GetUsers`, `RevokePermission`, the role services'
  `Delete` and all of `platform_service/industry_service.go` only delegate to
  a DAO.
- **Trivial constructors.** Every service constructor other than
  `NewSysAccessService` only opens the database and builds its DAOs. The
  same holds for `EndService` and for Begin/Commit/RollbackTransaction.
- **Connections and transactions.** `db_utils` is outside this model. A
  connection is only its open/close events.
- **Crash paths.** Go panics from unchecked type assertions
  (`dataval.(string)`, `dataval.(bool)`) are preconditions. Each applies
  only on the path that reaches its assertion: an input turned away by an
  earlier check need not be well typed. So is the
  `log.Fatal` on a failed open in `NewSysAccessService`.
- Records.Lower: ASCII lower-casing stands in for `strings.ToLower`;
  full Unicode case mapping is not modelled.
- Records.GetInt: an integer member is read only when it is stored as an
  integer. The lenient conversions of `utils.GetMemberDataInt` are not
  modelled. For example, region validation expects `region_db_type` to be a
  string (region_service.go:191). A region stored that way resolves to
  `db_type = 0` in `TenantDb.ResolveTenantDb`. `utils` is not part of this
  model, so whatever Go's conversion makes of that string is not captured.
- **Null values.** A nil map and an empty map are not distinguished: every
  error path that returns `nil` returns an empty record here.
- BusinessService.BusinessBaseService.RemoveUser: the store's response
  string is modelled as the removed access key.
- AppUserService.AppUserBaseService.BusinessList: the listing is the
  sequence of result entries. The other members of the store's response map
  (such as counts) are not modelled.
- **Logging** and the `init` log-flag setup have no behaviour here.

## Findings

| source | as written | input that shows it | evidently intended | confidence | as-written member | corrected member |
|---|---|---|---|---|---|---|
| platform_service/region_service.go:183-196 | Each check declares its own `err` in its `if` header and assigns the error to that shadowing variable. The function's own `err` stays nil, so every request passes. | `{region_id: "r1", region_db_type: "1"}`, a region without a name (`RegionService.MissingNamePassesAsWritten`). `RegionService.NamelessRegionStoredAsWritten` shows such a region being stored by `RegionBaseService.Create`; the corrected path is `RegionBaseService.CreateCorrected` | Refuse the first missing of region id, name and db type, with S30102 | not executed; certain from Go scoping rules | RegionService.ValidateCreateAsWritten | RegionService.ValidateCreate |
| platform_service/sysaccess_service.go:69-73 | When the business id is unknown, the constructor returns an error without closing the database it opened at line 48. No service is returned, so nothing can close it later. Closing on the missing-id path (line 56) shows the intent. | `props` with `business_id: "b1"` and no business `b1` in the directory | Close the connection before returning the error | not executed; high | SysAccessService.NewSysAccessServiceAsWritten | SysAccessService.NewSysAccessService |

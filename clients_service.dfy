/** The API client service: registering client keys and checking them. */
module ClientsService {
  import opened Records
  import opened Repository
  import opened Accounts

  const ErrMissingClientId := Coded("S3040101", "Missing client_id", "Missing required field client_id !!")
  const ErrClientExists := Coded("S3040102", "Existing client_id", "Given client_id is already exist")
  const ErrMissingSecret := Coded("S3040103", "Missing client_secret", "Missing required field client_secret !!")
  const ErrMissingType := Coded("S3040104", "Missing app_client_type", "Missing required field app_client_type !!")
  const ErrClientSuspended := Coded("S30340102", "Client key is in Suspended Mode. Contact Admin!",
                                    "Client key is in Suspended Mode. Contact Admin!")

  class ClientsBaseService {
    const daoAppClient: Dao
    /** The store's credential lookup (`ClientsDao.Authenticate`). */
    const credentials: (string, string) -> Option<Record>

    predicate Valid() {
      daoAppClient.keyField == CLIENT_ID
    }

    constructor (daoAppClient: Dao, credentials: (string, string) -> Option<Record>)
      requires daoAppClient.keyField == CLIENT_ID
      ensures Valid() && this.daoAppClient == daoAppClient && this.credentials == credentials
    {
      this.daoAppClient := daoAppClient;
      this.credentials := credentials;
    }

    /** Create: the client id must be given (it is used as given, not
        lower-cased); an existing id is refused, reporting the id; then the
        secret and the type must be given. A created client is never suspended. */
    method Create(indata: Record) returns (clientId: string, err: Option<Error>, indata': Record)
      requires Valid()
      requires StrIfPresent(indata, CLIENT_ID)
      modifies daoAppClient
      ensures CLIENT_ID !in indata ==>
                clientId == "" && err == Some(ErrMissingClientId) && indata' == indata
                && daoAppClient.rows == old(daoAppClient.rows)
      ensures CLIENT_ID in indata ==>
                var id := indata[CLIENT_ID].s;
                if id in old(daoAppClient.rows) then
                  clientId == id && err == Some(ErrClientExists) && indata' == indata
                  && daoAppClient.rows == old(daoAppClient.rows)
                else if CLIENT_SECRET !in indata then
                  clientId == "" && err == Some(ErrMissingSecret) && indata' == indata
                  && daoAppClient.rows == old(daoAppClient.rows)
                else if CLIENT_TYPE !in indata then
                  clientId == "" && err == Some(ErrMissingType) && indata' == indata
                  && daoAppClient.rows == old(daoAppClient.rows)
                else
                  && indata' == indata[IS_SUSPENDED := Bool(false)]
                  && clientId == id && err.None?
                  && daoAppClient.rows == old(daoAppClient.rows)[id := indata']
                  && GetBool(daoAppClient.rows[id], IS_SUSPENDED) == Some(false)
      ensures old(KeysAgree(daoAppClient.rows, CLIENT_ID)) ==> KeysAgree(daoAppClient.rows, CLIENT_ID)
    {
      if CLIENT_ID !in indata {
        return "", Some(ErrMissingClientId), indata;
      }
      var id := indata[CLIENT_ID].s;
      if daoAppClient.Get(id).Ok? {
        return id, Some(ErrClientExists), indata;
      }
      if CLIENT_SECRET !in indata {
        return "", Some(ErrMissingSecret), indata;
      }
      if CLIENT_TYPE !in indata {
        return "", Some(ErrMissingType), indata;
      }
      indata' := indata[CLIENT_ID := Str(id)][IS_SUSPENDED := Bool(false)];
      assert indata[CLIENT_ID := Str(id)] == indata;
      var created := daoAppClient.Create(indata');
      match created
      case Err(e) => clientId, err := "", Some(e);
      case Ok(_) => clientId, err := id, None;
    }

    /** Update: the client id is deleted from the request, so no Update
        changes it. */
    method Update(clientId: string, indata: Record) returns (data: Record, err: Option<Error>, indata': Record)
      requires Valid()
      modifies daoAppClient
      ensures indata' == Strip(indata, {CLIENT_ID})
      ensures clientId in old(daoAppClient.rows) ==>
                && err.None? && data == old(daoAppClient.rows)[clientId] + indata'
                && daoAppClient.rows == old(daoAppClient.rows)[clientId := data]
      ensures clientId !in old(daoAppClient.rows) ==>
                err == Some(NotFound(CLIENT_ID, clientId)) && data == map[]
                && daoAppClient.rows == old(daoAppClient.rows)
      ensures FieldsKept(old(daoAppClient.rows), daoAppClient.rows, {CLIENT_ID})
      ensures old(KeysAgree(daoAppClient.rows, CLIENT_ID)) ==> KeysAgree(daoAppClient.rows, CLIENT_ID)
    {
      indata' := Strip(indata, {CLIENT_ID});
      if clientId in daoAppClient.rows {
        MergeKeepsFields(daoAppClient.rows, clientId, indata', {CLIENT_ID}, CLIENT_ID);
      }
      var updated := daoAppClient.Update(clientId, indata');
      match updated
      case Err(e) => data, err := map[], Some(e);
      case Ok(r) => data, err := r, None;
    }

    /** Delete: removes the client; an unknown client is the store's error. */
    method Delete(clientId: string) returns (err: Option<Error>)
      requires Valid()
      modifies daoAppClient
      ensures clientId in old(daoAppClient.rows) ==>
                err.None? && daoAppClient.rows == old(daoAppClient.rows) - {clientId}
      ensures clientId !in old(daoAppClient.rows) ==>
                err == Some(NotFound(CLIENT_ID, clientId)) && daoAppClient.rows == old(daoAppClient.rows)
    {
      var removed := daoAppClient.Delete(clientId);
      match removed
      case Err(e) => err := Some(e);
      case Ok(_) => err := None;
    }

    /** Authenticate: a key the lookup does not find is refused as wrong
        credentials; a found key whose `is_suspended` is true is refused as
        suspended (the flag must be a boolean when present); any other found
        key is returned. */
    method Authenticate(clientId: string, clientSecret: string) returns (data: Record, err: Option<Error>)
      requires Valid()
      requires credentials(clientId, clientSecret).Some? ==>
                 BoolIfPresent(credentials(clientId, clientSecret).value, IS_SUSPENDED)
      ensures credentials(clientId, clientSecret).None? ==> data == map[] && err == Some(ErrWrongCredentials)
      ensures credentials(clientId, clientSecret).Some? ==>
                var client := credentials(clientId, clientSecret).value;
                if IS_SUSPENDED in client && client[IS_SUSPENDED].b then data == map[] && err == Some(ErrClientSuspended)
                else data == client && err.None?
      ensures err.None? <==> credentials(clientId, clientSecret).Some?
                             && GetBool(credentials(clientId, clientSecret).value, IS_SUSPENDED) != Some(true)
    {
      var found := credentials(clientId, clientSecret);
      if found.None? {
        return map[], Some(ErrWrongCredentials);
      }
      var client := found.value;
      if IS_SUSPENDED in client && client[IS_SUSPENDED].b {
        return map[], Some(ErrClientSuspended);
      }
      return client, None;
    }
  }
}

/** What the user and client services share: password hashing on the way to
    the store, and the outcome of a credential check. */
module Accounts {
  import opened Records

  const ErrWrongCredentials := Coded("S30340101", "Wrong Credentials", "Authenticate credentials is wrong !!")
  const ErrUserSuspended := Coded("S30340102", "User is in suspended mode. Contact Admin!", "User not in Active Mode. Contact Admin!")

  /** The request with the password member, when there is one, replaced by its
      hash; nothing else changes. */
  function HashIfPresent(indata: Record, field: string, hash: string -> string): (r: Record)
    requires StrIfPresent(indata, field)
    ensures r.Keys == indata.Keys
    ensures field in indata ==> r[field] == Str(hash(indata[field].s))
    ensures forall k :: k in indata && k != field ==> r[k] == indata[k]
  {
    if field in indata then indata[field := Str(hash(indata[field].s))] else indata
  }

  /** A user (app or system) found by the credential lookup, or not: only a
      found user whose `is_suspended` reads as a boolean true is refused; a
      missing or ill-typed flag does not block. */
  function UserLogin(found: Option<Record>): (r: Result<Record>)
    ensures found.None? ==> r == Err(ErrWrongCredentials)
    ensures found.Some? && GetBool(found.value, IS_SUSPENDED) == Some(true) ==> r == Err(ErrUserSuspended)
    ensures r.Ok? <==> found.Some? && GetBool(found.value, IS_SUSPENDED) != Some(true)
    ensures r.Ok? ==> r.value == found.value
  {
    match found
    case None => Err(ErrWrongCredentials)
    case Some(user) =>
      if GetBool(user, IS_SUSPENDED) == Some(true) then Err(ErrUserSuspended) else Ok(user)
  }
}

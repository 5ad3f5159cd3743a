/**
 * Validation of what the R-level credential providers return
 * (`get_password`, src/clone.c:37-55, and `get_key_files`, src/clone.c:57-73).
 *
 * The R call itself is abstracted: its result is None when the call raised an
 * error or did not return a character vector (`err || !Rf_isString(res)`),
 * and Some(v) with the vector's strings otherwise.
 */
module Providers {
  import opened Wrappers

  /** What `get_password` leaves behind: the (possibly filled) user name and the returned secret. */
  datatype Lookup = Lookup(user: Option<string>, secret: Option<string>)

  /**
   * `get_password`: a result with fewer than two strings is a failure (NULL
   * secret, user name untouched); otherwise element 1 is the secret and
   * element 0 fills the user name only if none was supplied.
   */
  function GetPassword(res: Option<seq<string>>, username: Option<string>): (r: Lookup)
    ensures r.secret.Some? <==> res.Some? && |res.value| >= 2
    ensures r.secret.Some? ==> r.secret.value == res.value[1]
    ensures username.Some? ==> r.user == username
    ensures username.None? && r.secret.Some? ==> r.user == Some(res.value[0])
    ensures r.secret.None? ==> r.user == username
    ensures r.secret.Some? ==> r.user.Some?
  {
    match res
    case None => Lookup(username, None)
    case Some(v) =>
      if |v| < 2 then Lookup(username, None)
      else Lookup(if username.None? then Some(v[0]) else username, Some(v[1]))
  }

  /** The three paths/phrases `get_key_files` stores into `auth_key_data`. */
  datatype KeyData = KeyData(pubkeyPath: string, keyPath: string, passPhrase: string)

  /** What `get_key_files` does as written: it fails (-1), succeeds (0), or reads past the end of the vector. */
  datatype KeyFilesAsWritten = KeyFailed | KeyRead(data: KeyData) | ReadPastEnd

  /**
   * `get_key_files` as written: only an R error or a non-character result is
   * rejected; elements 0, 1 and 2 are then read without a length check, so a
   * shorter vector is read past its end.
   */
  function GetKeyFilesAsWritten(res: Option<seq<string>>): (r: KeyFilesAsWritten)
    ensures r.KeyFailed? <==> res.None?
    ensures r.ReadPastEnd? <==> res.Some? && |res.value| < 3
    ensures r.KeyRead? ==> r.data == KeyData(res.value[0], res.value[1], res.value[2])
  {
    match res
    case None => KeyFailed
    case Some(v) => if |v| < 3 then ReadPastEnd else KeyRead(KeyData(v[0], v[1], v[2]))
  }

  /** An empty character vector, which passes the source's check, is read past its end. */
  lemma EmptyKeyVectorReadsPastEnd()
    ensures GetKeyFilesAsWritten(Some([])) == ReadPastEnd
    ensures GetKeyFilesAsWritten(Some(["id_rsa.pub", "id_rsa"])) == ReadPastEnd
  {
  }

  /**
   * `get_key_files` with the length check the reads need: a result with fewer
   * than three strings is a failure, like an R error.
   */
  function GetKeyFiles(res: Option<seq<string>>): (r: Option<KeyData>)
    ensures r.Some? <==> res.Some? && |res.value| >= 3
    ensures r.Some? ==> r.value == KeyData(res.value[0], res.value[1], res.value[2])
  {
    match res
    case None => None
    case Some(v) => if |v| < 3 then None else Some(KeyData(v[0], v[1], v[2]))
  }

  /** The corrected rule agrees with the source wherever the source's reads stay in bounds. */
  lemma GetKeyFilesAgrees(res: Option<seq<string>>)
    requires !GetKeyFilesAsWritten(res).ReadPastEnd?
    ensures GetKeyFiles(res).None? <==> GetKeyFilesAsWritten(res).KeyFailed?
    ensures GetKeyFiles(res).Some? ==> GetKeyFilesAsWritten(res) == KeyRead(GetKeyFiles(res).value)
  {
  }
}

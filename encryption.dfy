/**
 * The encrypted model fields. `EncryptedTextField` and `EncryptedCharField`
 * apply the same rules, so one pair of functions models both. The cipher
 * itself (Fernet under the configured key) is a parameter.
 */
module Encryption {
  import opened Wrappers
  import opened Text

  /** Every Fernet token starts with these characters. */
  const FernetPrefix := "gAAAAA"

  /**
   * The cipher as the fields see it: `encrypt` gives None when it raises,
   * `decrypt` gives None when the token is rejected.
   */
  datatype Cipher = Cipher(encrypt: string -> Option<string>, decrypt: string -> Option<string>)

  /** What Fernet promises: its tokens carry the prefix and decrypt back to the plaintext. */
  ghost predicate FernetLike(c: Cipher) {
    forall p :: c.encrypt(p).Some? ==>
      StartsWith(c.encrypt(p).value, FernetPrefix) && c.decrypt(c.encrypt(p).value) == Some(p)
  }

  datatype EncryptionError = EncryptionFailed

  /** The value is stored as it is: absent, empty, or already looking like a token. */
  predicate StoredAsIs(v: Option<string>) {
    v.None? || v.value == "" || StartsWith(v.value, FernetPrefix)
  }

  /**
   * `get_prep_value`: the value written to the database. A failing cipher
   * is re-raised, so nothing unencrypted is stored in its place.
   */
  function GetPrepValue(c: Cipher, v: Option<string>): (r: Result<Option<string>, EncryptionError>)
    ensures StoredAsIs(v) ==> r == Success(v)
    ensures !StoredAsIs(v) ==> (r.Failure? <==> c.encrypt(v.value).None?)
    ensures !StoredAsIs(v) && r.Success? ==> r.value == c.encrypt(v.value)
  {
    match v
    case None => Success(None)
    case Some(s) =>
      if s == "" || StartsWith(s, FernetPrefix) then Success(v)
      else
        match c.encrypt(s)
        case None => Failure(EncryptionFailed)
        case Some(token) => Success(Some(token))
  }

  /**
   * `to_python`: the value read back. Anything that does not look like a
   * token is returned unchanged; a token the cipher rejects reads as `''`.
   */
  function ToPython(c: Cipher, v: Option<string>): (r: Option<string>)
    ensures v.None? || v.value == "" || !StartsWith(v.value, FernetPrefix) ==> r == v
    ensures v.Some? && StartsWith(v.value, FernetPrefix) && c.decrypt(v.value).None? ==> r == Some("")
    ensures v.Some? && StartsWith(v.value, FernetPrefix) && c.decrypt(v.value).Some? ==> r == c.decrypt(v.value)
  {
    match v
    case None => None
    case Some(s) =>
      if s == "" || !StartsWith(s, FernetPrefix) then v
      else Some(c.decrypt(s).GetOr(""))
  }

  /** Writing then reading a secret gives the secret back. */
  lemma RoundTrip(c: Cipher, secret: string)
    requires FernetLike(c)
    requires secret != "" && !StartsWith(secret, FernetPrefix)
    requires GetPrepValue(c, Some(secret)).Success?
    ensures ToPython(c, GetPrepValue(c, Some(secret)).value) == Some(secret)
  {
    var token := c.encrypt(secret).value;
    assert StartsWith(token, FernetPrefix) && c.decrypt(token) == Some(secret);
  }

  /** Preparing a prepared value again is a no-op, so a token is never encrypted twice. */
  lemma PrepareTwice(c: Cipher, v: Option<string>)
    requires FernetLike(c)
    requires GetPrepValue(c, v).Success?
    ensures GetPrepValue(c, GetPrepValue(c, v).value) == GetPrepValue(c, v)
  {
    if !StoredAsIs(v) {
      assert StartsWith(c.encrypt(v.value).value, FernetPrefix);
    }
  }

  /**
   * A plaintext that happens to start like a token is stored unencrypted and,
   * unless it is a valid token, reads back as `''`.
   */
  lemma LookalikePlaintextIsLost(c: Cipher, secret: string)
    requires StartsWith(secret, FernetPrefix) && c.decrypt(secret).None?
    ensures GetPrepValue(c, Some(secret)) == Success(Some(secret))
    ensures ToPython(c, GetPrepValue(c, Some(secret)).value) == Some("")
  {
  }
}

/** The cipher adapter of src/utils/encryption.ts. The AES primitive, its UTF-8 decoding
    and JSON.parse belong to libraries and enter the model as function values. */
module Encryption {
  import opened JsValue

  /** The bytes of a decrypted word array. */
  type Bytes = seq<bv8>

  /** The cipher library: `AES.encrypt(data, password).toString()`, `AES.decrypt(token,
      password)` and `toString(enc.Utf8)` on the decrypted bytes; each may throw. */
  datatype CryptoLibrary = CryptoLibrary(
    encrypt: (string, string) -> Completion<string>,
    decrypt: (string, string) -> Completion<Bytes>,
    utf8: Bytes -> Completion<string>)

  const EncryptFailedMessage := "Failed to encrypt data"
  const DecryptFailedMessage := "Failed to decrypt data. Incorrect password or corrupted data."
  /** Thrown inside the adapter for an empty decryption and always caught there. */
  const EmptyDecryptionMessage := "Incorrect password or corrupted data"

  /** encryptData: the library's token unchanged, or one fixed error. */
  function EncryptData(lib: CryptoLibrary, data: string, password: string): (r: Completion<string>)
    ensures r.Normal? <==> lib.encrypt(data, password).Normal?
    ensures r.Normal? ==> r.value == lib.encrypt(data, password).value
    ensures r.Throw? ==> r.exception == Error(EncryptFailedMessage)
  {
    match lib.encrypt(data, password)
    case Normal(token) => Normal(token)
    case Throw(_) => Throw(Error(EncryptFailedMessage))
  }

  /** The `try` block of decryptData, before its `catch` rewrites what it throws. */
  function DecryptBlock(lib: CryptoLibrary, token: string, password: string): Completion<string> {
    match lib.decrypt(token, password)
    case Throw(e) => Throw(e)
    case Normal(bytes) =>
      match lib.utf8(bytes)
      case Throw(e) => Throw(e)
      case Normal(text) =>
        if text == "" then Throw(Error(EmptyDecryptionMessage)) else Normal(text)
  }

  /** The library yields the text `m` for `token` under `password`. */
  ghost predicate DecryptsTo(lib: CryptoLibrary, token: string, password: string, m: string) {
    lib.decrypt(token, password).Normal? && lib.utf8(lib.decrypt(token, password).value) == Normal(m)
  }

  /** decryptData: the library's non-empty decoding unchanged; every failure, the empty
      decoding included, becomes the one fixed error, and the inner message never escapes. */
  function DecryptData(lib: CryptoLibrary, token: string, password: string): (r: Completion<string>)
    ensures r.Normal? <==> lib.decrypt(token, password).Normal? && var text := lib.utf8(lib.decrypt(token, password).value);
      text.Normal? && text.value != ""
    ensures r.Normal? ==> r.value != "" && DecryptsTo(lib, token, password, r.value)
    ensures r.Throw? ==> r.exception == Error(DecryptFailedMessage)
    ensures r != Throw(Error(EmptyDecryptionMessage))
  {
    match DecryptBlock(lib, token, password)
    case Normal(text) => Normal(text)
    case Throw(_) => Throw(Error(DecryptFailedMessage))
  }

  /** isValidJSON: true exactly when parsing does not throw. */
  function IsValidJson(parse: string -> Completion<Json>, data: string): (r: bool)
    ensures r <==> parse(data).Normal?
  {
    match parse(data)
    case Normal(_) => true
    case Throw(_) => false
  }

  /** The round-trip the library is relied on for, for one message and password; the code
      itself does not establish it, so it only ever appears as a premise of a lemma or of
      a scenario method. */
  ghost predicate RoundTripsOn(lib: CryptoLibrary, m: string, password: string) {
    lib.encrypt(m, password).Normal? ==> DecryptsTo(lib, lib.encrypt(m, password).value, password, m)
  }

  /** Under that assumption a non-empty message comes back from the adapter unchanged. */
  lemma AdapterRoundTrip(lib: CryptoLibrary, m: string, password: string)
    requires RoundTripsOn(lib, m, password)
    requires m != "" && EncryptData(lib, m, password).Normal?
    ensures DecryptData(lib, EncryptData(lib, m, password).value, password) == Normal(m)
  {
  }

  /** Under the same assumption the empty message never comes back: its decryption is empty,
      which decryptData reports as a failure. */
  lemma EmptyMessageDoesNotRoundTrip(lib: CryptoLibrary, password: string)
    requires RoundTripsOn(lib, "", password)
    requires EncryptData(lib, "", password).Normal?
    ensures DecryptData(lib, EncryptData(lib, "", password).value, password) == Throw(Error(DecryptFailedMessage))
  {
  }
}

# LockNcode core, modelled in Dafny

LockNcode is a browser page that encrypts a text under a password, shows the token as a QR code,
and decrypts a token that is pasted, scanned or uploaded as a QR image. The cipher, the QR codec and
JSON parsing come from libraries. This project models the logic the repository adds on top of them:

- the cipher adapter (`encryptData`, `decryptData`, `isValidJSON`), with its error contract;
- the decrypted-payload classifier (`extractFileFromDecryptedData`);
- the encrypt and decrypt forms: their fields, the validators with their fixed messages and check
  order, the submit handlers, and the token field written by typing, by scan and by image upload;
- the page (`Home`): its six state fields, its handlers, the QR download guard and the choice of
  result panel.

Layout, one module per source file plus two for the JavaScript semantics the code relies on:

| file | module | models |
|---|---|---|
| js_string.dfy | `JsString` | `trim` (ECMAScript white space and line terminators), `length` in UTF-16 code units, `startsWith` |
| js_value.dfy | `JsValue` | `null`/`undefined` as `Option`, thrown values, call completions, JSON values, truthiness, property reads |
| encryption.dfy | `Encryption` | src/utils/encryption.ts |
| file_handling.dfy | `FileHandling` | src/utils/fileHandling.ts |
| home.dfy | `HomePage` | src/pages/Home.tsx: class `Home`, the `PageState` value and its `Step` function |
| encrypt_form.dfy | `EncryptFormComponent` | src/components/EncryptForm.tsx: class `EncryptForm` |
| decrypt_form.dfy | `DecryptFormComponent` | src/components/DecryptForm.tsx: class `DecryptForm` |
| scenarios.dfy | `Scenarios` | the page and the forms used together |

Modelling choices:

- The cipher library is a value of `Encryption.CryptoLibrary` with three function fields. They stand
  for `AES.encrypt(..).toString()`, `AES.decrypt(..)` and the UTF-8 `toString`, and each returns a
  `Completion` (a value, or a thrown exception). `JSON.parse` is a parameter of type
  `string -> Completion<Json>`. Nothing is assumed about either in general. The round trip
  `decrypt(encrypt(m, p), p) == m` enters only as the explicit premise `RoundTripsOn` of the lemmas
  and the scenario that need it. The scenario `Scenarios.EncryptScanDecrypt` makes one more
  assumption about the library: the token it returns is not blank, since the decrypt form refuses a
  blank token. It also requires a password that is not white space only.
- React state is a class field and each setter is a plain assignment, so the last write wins. The
  `setError` prop is `Home.SetError`. The `onEncrypt` and `onDecrypt` props are `Home.HandleEncrypt`
  and `Home.HandleDecrypt`. Each form holds its page as `page`.
- Each state-changing `Home` handler (mode change, encrypt, decrypt, reset, `setError`,
  `clearError`, `clearSuccess`) states its new state field by field and also as
  `State() == Step(old(State()), e)`. The lemmas about `Step` and `Run` therefore speak for the class.
  The constructor states `State() == InitialState` instead. `HandleDownloadQR` changes no state.
- JavaScript `password.length` counts UTF-16 code units (`Utf16Length`), so a character outside the
  Basic Multilingual Plane counts twice. `!encryptedData` is true for `null` and for `""` (`IsTruthy`).
- The handlers' last-resort branch for a thrown value that is not an `Error` is kept. It is proved
  to be unreachable: the adapter only ever throws `Error`s.
- `extractFileFromDecryptedData` is modelled and proved, but no flow calls it. The page renders
  decrypted text with `isFile={false}`.
- The two validators disagree on whitespace-only passwords. The encrypt form measures the untrimmed
  length, so it accepts six spaces. The decrypt form rejects any password that is blank after
  trimming. So a message encrypted under such a password cannot be decrypted through the form
  (`Scenarios.PasswordAcceptedOnlyByEncryptForm`). That lemma is an if-and-only-if: for a non-blank
  text and token, these blank passwords are the only ones the encrypt form accepts and the decrypt
  form refuses.

## Model

| member | source | states |
|---|---|---|
| `JsString.Trim` | src/components/EncryptForm.tsx:42 | `s.trim()` is empty exactly when every character is ECMAScript white space or a line terminator; otherwise the result starts and ends with a non-white-space character |
| `JsString.TrimStart` | src/components/DecryptForm.tsx:60 | removes exactly the leading white space: the result is a suffix whose removed prefix is blank and whose first character is not white space |
| `JsString.TrimEnd` | src/components/DecryptForm.tsx:65 | removes exactly the trailing white space: the result is a prefix whose removed suffix is blank and whose last character is not white space |
| `JsString.TrimIsInnerSlice` | src/components/EncryptForm.tsx:42 | `trim` only drops white space at the two ends: the result is a contiguous slice of the input, with a blank prefix before it and a blank suffix after it |
| `JsString.Utf16LengthAppend` | src/components/EncryptForm.tsx:32 | JavaScript `length` is additive: the length of a concatenation is the sum of the two lengths |
| `JsString.Utf16Length` | src/components/EncryptForm.tsx:32 | JavaScript `length` lies between the number of characters and twice that, and equals it exactly when every character is in the Basic Multilingual Plane |
| `JsString.StartsWith` | src/components/DecryptForm.tsx:35 | `startsWith(prefix)` holds exactly when `prefix` is a prefix of the string |
| `JsValue.GetProperty` | src/utils/fileHandling.ts:84 | reading `type`, `name` or `content` throws exactly on `null` and throws an `Error`; on an object it yields the own member if present; any other value yields `undefined` |
| `Encryption.EncryptData` | src/utils/encryption.ts:9-17 | returns the library token unchanged when the library returns; every library throw becomes exactly `'Failed to encrypt data'` |
| `Encryption.DecryptData` | src/utils/encryption.ts:25-39 | succeeds exactly when the library decrypts and its UTF-8 decoding returns a non-empty string, and then returns that string unchanged; it never returns `""`; every failure, the empty decoding included, is exactly `'Failed to decrypt data. Incorrect password or corrupted data.'`, and the inner `'Incorrect password or corrupted data'` never escapes |
| `Encryption.IsValidJson` | src/utils/encryption.ts:46-53 | total; true exactly when parsing does not throw |
| `Encryption.AdapterRoundTrip` | src/utils/encryption.ts:9-39 | if the library round-trips a non-empty message `m` and encryption returns, decrypting the token with the same password returns `m` |
| `Encryption.EmptyMessageDoesNotRoundTrip` | src/utils/encryption.ts:30-37 | even with a round-tripping library, the token of the empty message never decrypts: the adapter reports the fixed decryption failure |
| `FileHandling.FieldsTruthy` | src/utils/fileHandling.ts:84 | `fileData.type && fileData.name && fileData.content` throws exactly on `null`; otherwise it is true exactly when the value is an object whose three fields are all present and truthy |
| `FileHandling.ExtractFileFromDecryptedData` | src/utils/fileHandling.ts:75-103 | total: a parsed object with truthy `type`, `name` and `content` is returned as the parsed value itself; input that does not parse, `null`, any non-object and an object with a missing or falsy field all give `{content: input, name: 'decrypted.txt', type: 'text/plain'}`; whenever the result is not a file record its content is the input verbatim |
| `FileHandling.ExtractedHasNameAndType` | src/utils/fileHandling.ts:80-101 | on every path the result is an object with a truthy `name` and `type` |
| `FileHandling.FalsyFieldIsPlainText` | src/utils/fileHandling.ts:84-94 | an object whose `type`, `name` or `content` is missing, `""`, `0`, `false` or `null` gives the default plain-text record |
| `HomePage.SelectPanel` | src/pages/Home.tsx:137-212 | the encryption result shows exactly when the mode is encrypt and the token is non-empty; the decryption result shows exactly when the mode is decrypt and the plaintext is non-empty; each shows the stored value; otherwise the placeholder of the current mode shows |
| `HomePage.NoResultUntilSuccess` | src/pages/Home.tsx:20-64 | from a state showing the placeholder, a sequence of events that contains no successful encrypt or decrypt keeps showing the placeholder |
| `HomePage.ModeChangeHidesResult` | src/pages/Home.tsx:20-27 | right after a mode change the placeholder of the new mode shows, and it stays until the next successful encrypt or decrypt |
| `HomePage.ModeChangeIsReset` | src/pages/Home.tsx:20-64 | a mode change is resetForm plus the new mode; resetForm keeps the mode and is idempotent |
| `HomePage.Home.constructor` | src/pages/Home.tsx:13-18 | the initial state: encrypt mode, no token, no plaintext, no QR code, no error, no success message |
| `HomePage.Home.HandleModeChange` | src/pages/Home.tsx:20-27 | sets the mode and resets encryptedData, decryptedData, error and success to null and showQRCode to false |
| `HomePage.Home.HandleEncrypt` | src/pages/Home.tsx:29-34 | stores the token, shows the QR code, clears the error, sets `'Text encrypted successfully!'`; mode and decryptedData unchanged |
| `HomePage.Home.HandleDecrypt` | src/pages/Home.tsx:36-40 | stores the plaintext, clears the error, sets `'Text decrypted successfully!'`; mode, encryptedData and showQRCode unchanged |
| `HomePage.Home.SetError` | src/pages/Home.tsx:17 | the error setter handed to both forms changes the error and nothing else, which is the `ErrorSet` step |
| `HomePage.Home.ClearError` | src/pages/Home.tsx:55 | nulls the error and nothing else, which is the `ClearError` step |
| `HomePage.Home.ClearSuccess` | src/pages/Home.tsx:56 | nulls the success message and nothing else, which is the `ClearSuccess` step |
| `HomePage.Home.ResetForm` | src/pages/Home.tsx:58-64 | resets the same five fields as a mode change and keeps the mode |
| `HomePage.Home.HandleDownloadQR` | src/pages/Home.tsx:42-53 | exports `encrypted-qr-code.png` exactly when the token is non-empty and a canvas is on the page; a no-op otherwise, and the state never changes |
| `EncryptFormComponent.EncryptInputError` | src/components/EncryptForm.tsx:28-48 | no message exactly when the password has UTF-16 length at least 6, equals its confirmation and the text is not blank; a short untrimmed password gives the length message whatever else holds; the mismatch message comes next; the blank-text message only after both password checks pass |
| `EncryptFormComponent.AstralLength` | src/components/EncryptForm.tsx:32 | a string made only of characters outside the Basic Multilingual Plane has a JavaScript `length` of twice its number of characters |
| `EncryptFormComponent.AstralPasswordAccepted` | src/components/EncryptForm.tsx:32 | for a non-blank text, a password made only of characters outside the Basic Multilingual Plane, typed twice, passes the encrypt form exactly when it has at least three characters |
| `EncryptFormComponent.EncryptForm.constructor` | src/components/EncryptForm.tsx:11-14 | empty text, password and confirmation, no message, bound to its page |
| `EncryptFormComponent.EncryptForm.HandleTextChange` | src/components/EncryptForm.tsx:16-18 | replaces the text only |
| `EncryptFormComponent.EncryptForm.HandlePasswordChange` | src/components/EncryptForm.tsx:20-22 | replaces the password only |
| `EncryptFormComponent.EncryptForm.HandleConfirmPasswordChange` | src/components/EncryptForm.tsx:24-26 | replaces the confirmation only |
| `EncryptFormComponent.EncryptForm.ValidateForm` | src/components/EncryptForm.tsx:28-48 | clears the page error; the field message becomes the first failing check's message; returns true exactly when there is none |
| `EncryptFormComponent.EncryptForm.HandleSubmit` | src/components/EncryptForm.tsx:50-65 | calls encryptData only after validation passes, with the untrimmed text and password; a token reaches the page's encrypt handler unchanged; a failure sets the page error to `'Failed to encrypt data'` and nothing else; the unknown-error message is never set |
| `DecryptFormComponent.DecryptInputError` | src/components/DecryptForm.tsx:56-71 | no message exactly when neither the token nor the password is blank after trimming; a blank token is reported first; a blank password is reported only for a non-blank token |
| `DecryptFormComponent.DecryptForm.constructor` | src/components/DecryptForm.tsx:13-16 | empty token and password, scanner hidden, no message, bound to its page |
| `DecryptFormComponent.DecryptForm.HandleEncryptedTextChange` | src/components/DecryptForm.tsx:18-20 | typing replaces the token only |
| `DecryptFormComponent.DecryptForm.HandlePasswordChange` | src/components/DecryptForm.tsx:22-24 | replaces the password only |
| `DecryptFormComponent.DecryptForm.SetShowScanner` | src/components/DecryptForm.tsx:96 | the scan and cancel buttons set only the scanner flag |
| `DecryptFormComponent.DecryptForm.HandleQRScan` | src/components/DecryptForm.tsx:26-29 | the scanned string replaces the token and the scanner closes; the password is untouched |
| `DecryptFormComponent.DecryptForm.HandleQRImageUpload` | src/components/DecryptForm.tsx:31-54 | no file: nothing changes; a MIME type not starting with `image/`: the page error becomes `'Please upload an image file'`, the token stays and no decode is attempted; a decoded image: the token is replaced and the page error cleared; no code found or no reader: the matching message is set and the token stays |
| `DecryptFormComponent.DecryptForm.ValidateForm` | src/components/DecryptForm.tsx:56-71 | clears the page error; the field message becomes the first failing check's message; returns true exactly when there is none |
| `DecryptFormComponent.DecryptForm.HandleSubmit` | src/components/DecryptForm.tsx:73-88 | calls decryptData only after validation passes, with the untrimmed token and password; a plaintext reaches the page's decrypt handler unchanged; a failure sets the page error to the adapter's one fixed message; the unknown-error message is never set; the mode never changes |
| `Scenarios.EncryptOnPage` | src/components/EncryptForm.tsx:50-57 | on a page in encrypt mode, filling in and submitting input the form accepts leaves the library's token on the page, in the same mode |
| `Scenarios.DecryptOnPage` | src/components/DecryptForm.tsx:73-80 | on a page in decrypt mode, a scanned non-blank token with a non-blank password that the adapter decrypts leaves the text on the page, in the same mode |
| `Scenarios.EncryptScanDecrypt` | src/pages/Home.tsx:20-40 | encrypt, switch to decrypt mode, scan the token and decrypt with the same password: the page shows the token, and then the original text, given that the library round-trips that message and returns a non-blank token, for a password that is not white space only |
| `Scenarios.PasswordAcceptedOnlyByEncryptForm` | src/components/DecryptForm.tsx:65-68 | for a non-blank text and token, a password typed twice passes the encrypt form and is refused by the decrypt form exactly when it is white space only and at least six UTF-16 code units long |

## Left out

- The AES primitive, key derivation, salt, IV and token format belong to CryptoJS and are function
  values here. The code does not establish that decryption inverts encryption, or that a wrong
  password fails rather than yielding other text. The first is a premise; the second is not claimed.
- `JSON.parse` is an abstract parse into a JSON value; no JSON grammar is modelled. JSON numbers are
  exact reals, so `Infinity`, `NaN` and the sign of zero are not represented.
- Strings are sequences of Unicode scalar values. JavaScript strings holding lone surrogates are not
  represented.
- The camera scanner (src/components/QRCodeScanner.tsx) is left out: its start/stop lifecycle,
  device release and asynchronous callbacks are device plumbing over html5-qrcode. Only the string
  it hands to `handleQRScan` is modelled.
- QR rendering (src/components/QRCodeDisplay.tsx) and image decoding are library code. Decoding an
  uploaded image enters `HandleQRImageUpload` as an outcome parameter. That parameter's
  `ReaderFailed` case stands for the reader constructor throwing.
- `HomePage.Home.HandleDownloadQR`: the canvas lookup is a parameter. The asynchronous `toBlob`
  callback and the save itself are not modelled, so the result says only that the export was
  started under the file name.
- `DecryptFormComponent.DecryptForm.HandleQRImageUpload` runs to completion in one step. The
  `await` between the MIME check and the scan result, and events interleaved there, are not
  modelled.
- Browser I/O in src/utils/fileHandling.ts (`readFileAsText`, `readFileAsDataURL`, `saveFile`) uses
  FileReader, Blob and file-saver. It is left out.
- `encodeBase64` and `decodeBase64` are thin wrappers over `btoa` and `atob`, and no flow uses them.
- The 5-second auto-dismiss of alerts, and the clipboard and 2-second "copied" timer of the results
  panel, are timers and browser APIs.
- Header, footer, JSX and CSS are presentation. src/types/index.ts has no behaviour.
- React unmounts the form of the mode being left, so its fields start empty when that mode comes
  back. The forms here are separate objects that the page does not own, so that reset is not
  modelled.
- The `console.error` logging in the catch branches has no modelled effect.

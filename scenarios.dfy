/** How the page and the two forms work together: the encrypt, scan and decrypt round trip,
    and what the two validators accept between them. */
module Scenarios {
  import opened JsValue
  import opened JsString
  import Encryption
  import HomePage
  import EncryptFormComponent
  import DecryptFormComponent

  /** An encrypt form on `page` with the text typed and the password typed twice. */
  method FillEncryptForm(page: HomePage.Home, text: string, password: string)
    returns (form: EncryptFormComponent.EncryptForm)
    ensures fresh(form) && form.page == page
    ensures form.text == text && form.password == password && form.confirmPassword == password
  {
    form := new EncryptFormComponent.EncryptForm(page);
    form.HandleTextChange(text);
    form.HandlePasswordChange(password);
    form.HandleConfirmPasswordChange(password);
  }

  /** The encrypt half, on a page in encrypt mode, the only mode that shows the encrypt form:
      input the form accepts (by the contract of `EncryptInputError`, a password of at least six
      UTF-16 code units typed twice and a non-blank text) is filled in and submitted, and the
      page ends up holding the library's token, with the mode unchanged. */
  method EncryptOnPage(page: HomePage.Home, lib: Encryption.CryptoLibrary, text: string, password: string)
    returns (token: string)
    requires page.mode == HomePage.Encrypt
    requires Utf16Length(password) >= EncryptFormComponent.MinPasswordLength && !IsBlank(text)
    requires lib.encrypt(text, password).Normal?
    modifies page
    ensures token == lib.encrypt(text, password).value
    ensures page.encryptedData == Some(token) && page.mode == old(page.mode)
  {
    var form := FillEncryptForm(page, text, password);
    var _ := form.HandleSubmit(lib);
    token := page.encryptedData.value;
  }

  /** A decrypt form on `page` with the token scanned in and the password typed. */
  method FillDecryptForm(page: HomePage.Home, token: string, password: string)
    returns (form: DecryptFormComponent.DecryptForm)
    ensures fresh(form) && form.page == page
    ensures form.encryptedText == token && form.password == password
  {
    form := new DecryptFormComponent.DecryptForm(page);
    form.HandleQRScan(token);
    form.HandlePasswordChange(password);
  }

  /** The decrypt half, on a page in decrypt mode, the only mode that shows the decrypt form:
      the token arrives through the scanner, the password is typed, both non-blank as the form
      demands, the form is submitted, and the page ends up holding the text, with the mode
      unchanged. */
  method DecryptOnPage(page: HomePage.Home, lib: Encryption.CryptoLibrary, token: string, password: string, text: string)
    requires page.mode == HomePage.Decrypt
    requires !IsBlank(token) && !IsBlank(password)
    requires Encryption.DecryptData(lib, token, password) == Normal(text)
    modifies page
    ensures page.decryptedData == Some(text) && page.mode == old(page.mode)
  {
    var form := FillDecryptForm(page, token, password);
    var _ := form.HandleSubmit(lib);
  }

  /** Encrypt `text` on a fresh page, read the resulting token back through the scanner in
      decrypt mode with the same password, and decrypt it: given that the library round-trips
      this one message and returns a non-blank token, and for input the encrypt form accepts
      with a password that is not white space only, the page first shows the token and
      finally the text. */
  method EncryptScanDecrypt(lib: Encryption.CryptoLibrary, text: string, password: string)
    returns (afterEncrypt: HomePage.ResultPanel, afterDecrypt: HomePage.ResultPanel)
    requires Utf16Length(password) >= EncryptFormComponent.MinPasswordLength && !IsBlank(text)
    requires !IsBlank(password)
    requires lib.encrypt(text, password).Normal? && !IsBlank(lib.encrypt(text, password).value)
    requires Encryption.RoundTripsOn(lib, text, password)
    ensures afterEncrypt == HomePage.EncryptionResult(lib.encrypt(text, password).value)
    ensures afterDecrypt == HomePage.DecryptionResult(text)
  {
    var page := new HomePage.Home();
    var token := EncryptOnPage(page, lib, text, password);
    afterEncrypt := HomePage.SelectPanel(page.State());

    page.HandleModeChange(HomePage.Decrypt);
    Encryption.AdapterRoundTrip(lib, text, password);
    DecryptOnPage(page, lib, token, password, text);
    afterDecrypt := HomePage.SelectPanel(page.State());
  }

  /** For a non-blank text and token, a password (typed twice) passes the encrypt form but is
      refused by the decrypt form exactly when it is white space only and at least six UTF-16
      code units long: a message encrypted under such a password, six spaces say, cannot be
      decrypted through the form, and every other password the encrypt form accepts the
      decrypt form accepts too. */
  lemma {:induction false} PasswordAcceptedOnlyByEncryptForm(text: string, token: string, p: string)
    requires !IsBlank(text) && !IsBlank(token)
    ensures (EncryptFormComponent.EncryptInputError(text, p, p) == None && DecryptFormComponent.DecryptInputError(token, p) != None)
      <==> (Utf16Length(p) >= EncryptFormComponent.MinPasswordLength && IsBlank(p))
  {
  }
}

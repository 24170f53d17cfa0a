/** The encrypt form of src/components/EncryptForm.tsx. Its `setError` and `onEncrypt` props
    are the page's error setter and its encrypt handler. */
module EncryptFormComponent {
  import opened JsValue
  import opened JsString
  import Encryption
  import HomePage

  const MinPasswordLength := 6
  const PasswordTooShortMessage := "Password must be at least 6 characters long"
  const PasswordMismatchMessage := "Passwords do not match"
  const EmptyTextMessage := "Please enter text to encrypt"
  const UnknownEncryptErrorMessage := "An unknown error occurred during encryption"

  /** The decision of validateForm: the first failing check's message, or `None`. The length
      check comes first and counts UTF-16 code units of the untrimmed password, the match
      check second, and the blank-text check only after both pass. */
  function EncryptInputError(text: string, password: string, confirmPassword: string): (r: Option<string>)
    ensures r == None <==> Utf16Length(password) >= MinPasswordLength && password == confirmPassword && !IsBlank(text)
    ensures Utf16Length(password) < MinPasswordLength ==> r == Some(PasswordTooShortMessage)
    ensures Utf16Length(password) >= MinPasswordLength && password != confirmPassword ==> r == Some(PasswordMismatchMessage)
    ensures Utf16Length(password) >= MinPasswordLength && password == confirmPassword && IsBlank(text) ==> r == Some(EmptyTextMessage)
  {
    if Utf16Length(password) < MinPasswordLength then Some(PasswordTooShortMessage)
    else if password != confirmPassword then Some(PasswordMismatchMessage)
    else if Trim(text) == "" then Some(EmptyTextMessage)
    else None
  }

  class EncryptForm {
    var text: string
    var password: string
    var confirmPassword: string
    var validationError: Option<string>
    const page: HomePage.Home

    /** The four `useState` initial values. */
    constructor (page: HomePage.Home)
      ensures this.page == page
      ensures text == "" && password == "" && confirmPassword == "" && validationError == None
    {
      this.page := page;
      text, password, confirmPassword := "", "", "";
      validationError := None;
    }

    /** handleTextChange. */
    method HandleTextChange(value: string)
      modifies this
      ensures text == value
      ensures password == old(password) && confirmPassword == old(confirmPassword)
      ensures validationError == old(validationError)
    {
      text := value;
    }

    /** handlePasswordChange. */
    method HandlePasswordChange(value: string)
      modifies this
      ensures password == value
      ensures text == old(text) && confirmPassword == old(confirmPassword)
      ensures validationError == old(validationError)
    {
      password := value;
    }

    /** handleConfirmPasswordChange. */
    method HandleConfirmPasswordChange(value: string)
      modifies this
      ensures confirmPassword == value
      ensures text == old(text) && password == old(password)
      ensures validationError == old(validationError)
    {
      confirmPassword := value;
    }

    /** validateForm: clears the field message and the page error, then records the first
        failing check; the inputs are untouched. */
    method ValidateForm() returns (ok: bool)
      modifies this, page
      ensures text == old(text) && password == old(password) && confirmPassword == old(confirmPassword)
      ensures validationError == EncryptInputError(text, password, confirmPassword)
      ensures ok <==> validationError == None
      ensures page.State() == old(page.State()).(error := None)
    {
      validationError := None;
      page.SetError(None);
      if Utf16Length(password) < MinPasswordLength {
        validationError := Some(PasswordTooShortMessage);
        return false;
      }
      if password != confirmPassword {
        validationError := Some(PasswordMismatchMessage);
        return false;
      }
      if Trim(text) == "" {
        validationError := Some(EmptyTextMessage);
        return false;
      }
      return true;
    }

    /** handleSubmit. The cipher is called only after validation passes, with the untrimmed
        text and password (`called` records those arguments; the page-state ensures below,
        which name `lib.encrypt(text, password)`, are what show it). A token goes to the page's
        encrypt handler unchanged; a failure becomes the page error, and is always the
        adapter's fixed message, never the unknown-error one. */
    method HandleSubmit(lib: Encryption.CryptoLibrary) returns (ghost called: Option<(string, string)>)
      modifies this, page
      ensures text == old(text) && password == old(password) && confirmPassword == old(confirmPassword)
      ensures validationError == EncryptInputError(text, password, confirmPassword)
      ensures called == (if validationError == None then Some((text, password)) else None)
      ensures validationError != None ==> page.State() == old(page.State()).(error := None)
      ensures validationError == None && lib.encrypt(text, password).Normal? ==>
        page.State() == HomePage.Step(old(page.State()).(error := None), HomePage.Encrypted(lib.encrypt(text, password).value))
      ensures validationError == None && lib.encrypt(text, password).Throw? ==>
        page.State() == old(page.State()).(error := Some(Encryption.EncryptFailedMessage))
      ensures page.error != Some(UnknownEncryptErrorMessage)
    {
      var ok := ValidateForm();
      if !ok {
        return None;
      }
      called := Some((text, password));
      var result := Encryption.EncryptData(lib, text, password);
      match result
      case Normal(encryptedText) =>
        page.HandleEncrypt(encryptedText);
      case Throw(e) =>
        page.SetError(Some(if e.Error? then e.message else UnknownEncryptErrorMessage));
    }
  }

  /** Every character outside the Basic Multilingual Plane counts twice in `length`. */
  lemma {:induction false} AstralLength(p: string)
    requires forall i :: 0 <= i < |p| ==> p[i] as int > 0xFFFF
    ensures Utf16Length(p) == 2 * |p|
  {
    if p != [] {
      assert forall i :: 0 <= i < |p[1..]| ==> p[1..][i] == p[i + 1];
      AstralLength(p[1..]);
    }
  }

  /** So a password of such characters needs only three of them to pass the length check. */
  lemma {:induction false} AstralPasswordAccepted(text: string, p: string)
    requires !IsBlank(text)
    requires forall i :: 0 <= i < |p| ==> p[i] as int > 0xFFFF
    ensures EncryptInputError(text, p, p) == None <==> |p| >= 3
  {
    AstralLength(p);
  }
}

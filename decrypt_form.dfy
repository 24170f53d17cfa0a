/** The decrypt form of src/components/DecryptForm.tsx. Its `setError` and `onDecrypt` props
    are the page's error setter and its decrypt handler. The token field is written by typing,
    by a camera scan and by an uploaded image; the last write wins. */
module DecryptFormComponent {
  import opened JsValue
  import opened JsString
  import Encryption
  import HomePage

  const EmptyTokenMessage := "Please enter encrypted text"
  const EmptyPasswordMessage := "Please enter the decryption password"
  const UnknownDecryptErrorMessage := "An unknown error occurred during decryption"
  const NotAnImageMessage := "Please upload an image file"
  const NoQrCodeMessage := "Could not detect QR code in the image. Please try a different image or enter the encrypted text manually."
  const ImageProcessingMessage := "Failed to process the QR code image"
  const ImageMimePrefix := "image/"

  /** The first file of the upload input, known by its MIME type. */
  datatype SelectedFile = SelectedFile(mimeType: string)

  /** How the QR image scan ends: the reader cannot be created, no code is found in the
      image, or a code decodes to a string. */
  datatype ImageScan = ReaderFailed | NoCodeFound | Decoded(text: string)

  /** The decision of validateForm: a blank token is reported before the password is looked at;
      both are judged after trimming. */
  function DecryptInputError(encryptedText: string, password: string): (r: Option<string>)
    ensures r == None <==> !IsBlank(encryptedText) && !IsBlank(password)
    ensures IsBlank(encryptedText) ==> r == Some(EmptyTokenMessage)
    ensures !IsBlank(encryptedText) && IsBlank(password) ==> r == Some(EmptyPasswordMessage)
  {
    if Trim(encryptedText) == "" then Some(EmptyTokenMessage)
    else if Trim(password) == "" then Some(EmptyPasswordMessage)
    else None
  }

  class DecryptForm {
    var encryptedText: string
    var password: string
    var showScanner: bool
    var validationError: Option<string>
    const page: HomePage.Home

    /** The four `useState` initial values. */
    constructor (page: HomePage.Home)
      ensures this.page == page
      ensures encryptedText == "" && password == "" && !showScanner && validationError == None
    {
      this.page := page;
      encryptedText, password := "", "";
      showScanner := false;
      validationError := None;
    }

    /** handleEncryptedTextChange: typing into the token field. */
    method HandleEncryptedTextChange(value: string)
      modifies this
      ensures encryptedText == value
      ensures password == old(password) && showScanner == old(showScanner) && validationError == old(validationError)
    {
      encryptedText := value;
    }

    /** handlePasswordChange. */
    method HandlePasswordChange(value: string)
      modifies this
      ensures password == value
      ensures encryptedText == old(encryptedText) && showScanner == old(showScanner) && validationError == old(validationError)
    {
      password := value;
    }

    /** The "Scan QR" button (`true`) and its cancel button (`false`). */
    method SetShowScanner(show: bool)
      modifies this
      ensures showScanner == show
      ensures encryptedText == old(encryptedText) && password == old(password) && validationError == old(validationError)
    {
      showScanner := show;
    }

    /** handleQRScan: the scanned string replaces the token and the scanner closes; the
        password is untouched. */
    method HandleQRScan(data: string)
      modifies this
      ensures encryptedText == data && !showScanner
      ensures password == old(password) && validationError == old(validationError)
    {
      encryptedText := data;
      showScanner := false;
    }

    /** handleQRImageUpload. With no file nothing changes. A file that is not an image sets the
        page error and attempts no decode (`decodeAttempted` is false). Otherwise a decoded string
        replaces the token and clears the page error, and a failed scan sets its message and
        leaves the token as it was. `decodeAttempted` only labels the branches; that a non-image
        file reaches no decode is shown by its ensures, which keep the token and set only the
        not-an-image message whatever `scan` holds. */
    method HandleQRImageUpload(file: Option<SelectedFile>, scan: ImageScan) returns (ghost decodeAttempted: bool)
      modifies this`encryptedText, page
      ensures password == old(password) && showScanner == old(showScanner) && validationError == old(validationError)
      ensures decodeAttempted <==> file.Some? && StartsWith(file.value.mimeType, ImageMimePrefix)
      ensures file.None? ==> encryptedText == old(encryptedText) && page.State() == old(page.State())
      ensures file.Some? && !decodeAttempted ==>
        encryptedText == old(encryptedText) && page.State() == old(page.State()).(error := Some(NotAnImageMessage))
      ensures decodeAttempted && scan.Decoded? ==>
        encryptedText == scan.text && page.State() == old(page.State()).(error := None)
      ensures decodeAttempted && scan.NoCodeFound? ==>
        encryptedText == old(encryptedText) && page.State() == old(page.State()).(error := Some(NoQrCodeMessage))
      ensures decodeAttempted && scan.ReaderFailed? ==>
        encryptedText == old(encryptedText) && page.State() == old(page.State()).(error := Some(ImageProcessingMessage))
    {
      if file.None? {
        return false;
      }
      if !StartsWith(file.value.mimeType, ImageMimePrefix) {
        page.SetError(Some(NotAnImageMessage));
        return false;
      }
      decodeAttempted := true;
      match scan
      case ReaderFailed =>
        page.SetError(Some(ImageProcessingMessage));
      case NoCodeFound =>
        page.SetError(Some(NoQrCodeMessage));
      case Decoded(decodedText) =>
        encryptedText := decodedText;
        page.SetError(None);
    }

    /** validateForm: clears the field message and the page error, then records the first
        failing check; the inputs are untouched. */
    method ValidateForm() returns (ok: bool)
      modifies this`validationError, page
      ensures validationError == DecryptInputError(encryptedText, password)
      ensures ok <==> validationError == None
      ensures page.State() == old(page.State()).(error := None)
    {
      validationError := None;
      page.SetError(None);
      if Trim(encryptedText) == "" {
        validationError := Some(EmptyTokenMessage);
        return false;
      }
      if Trim(password) == "" {
        validationError := Some(EmptyPasswordMessage);
        return false;
      }
      return true;
    }

    /** handleSubmit. The cipher is called only after validation passes, with the untrimmed
        token and password (`called` records those arguments; the page-state ensures below,
        which name `DecryptData(lib, encryptedText, password)`, are what show it). A plaintext goes to the page's
        decrypt handler unchanged; a failure sets the page error to the adapter's one fixed
        message, never the unknown-error one. */
    method HandleSubmit(lib: Encryption.CryptoLibrary) returns (ghost called: Option<(string, string)>)
      modifies this`validationError, page
      ensures validationError == DecryptInputError(encryptedText, password)
      ensures called == (if validationError == None then Some((encryptedText, password)) else None)
      ensures validationError != None ==> page.State() == old(page.State()).(error := None)
      ensures validationError == None && Encryption.DecryptData(lib, encryptedText, password).Normal? ==>
        page.State() == HomePage.Step(old(page.State()).(error := None),
                                      HomePage.Decrypted(Encryption.DecryptData(lib, encryptedText, password).value))
      ensures validationError == None && Encryption.DecryptData(lib, encryptedText, password).Throw? ==>
        page.State() == old(page.State()).(error := Some(Encryption.DecryptFailedMessage))
      ensures page.error != Some(UnknownDecryptErrorMessage)
      ensures validationError == None && Encryption.DecryptData(lib, encryptedText, password).Normal? ==>
        page.decryptedData == Some(Encryption.DecryptData(lib, encryptedText, password).value)
      ensures page.mode == old(page.mode)
    {
      var ok := ValidateForm();
      if !ok {
        return None;
      }
      called := Some((encryptedText, password));
      var result := Encryption.DecryptData(lib, encryptedText, password);
      match result
      case Normal(decryptedText) =>
        page.HandleDecrypt(decryptedText);
      case Throw(e) =>
        page.SetError(Some(if e.Error? then e.message else UnknownDecryptErrorMessage));
    }
  }
}

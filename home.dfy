/** The page of src/pages/Home.tsx: six pieces of state, the handlers that set them, and the
    choice of result panel. Each React setter is one assignment; the last write wins. */
module HomePage {
  import opened JsValue

  datatype Mode = Encrypt | Decrypt

  const EncryptSuccessMessage := "Text encrypted successfully!"
  const DecryptSuccessMessage := "Text decrypted successfully!"
  const QrImageFileName := "encrypted-qr-code.png"

  /** A snapshot of the page's state. */
  datatype PageState = PageState(
    mode: Mode,
    encryptedData: Option<string>,
    decryptedData: Option<string>,
    showQRCode: bool,
    error: Option<string>,
    success: Option<string>)

  const InitialState := PageState(Encrypt, None, None, false, None, None)

  /** What the right-hand column shows. */
  datatype ResultPanel =
    | EncryptionResult(token: string)
    | DecryptionResult(plaintext: string)
    | Placeholder(forMode: Mode)

  /** The encryption result shows exactly when the mode is encrypt and there is a non-empty
      token, the decryption result exactly when the mode is decrypt and there is a non-empty
      plaintext; otherwise the placeholder for the current mode shows. */
  function SelectPanel(s: PageState): (p: ResultPanel)
    ensures p.EncryptionResult? <==> s.mode == Encrypt && IsTruthy(s.encryptedData)
    ensures p.DecryptionResult? <==> s.mode == Decrypt && IsTruthy(s.decryptedData)
    ensures p.EncryptionResult? ==> s.encryptedData == Some(p.token)
    ensures p.DecryptionResult? ==> s.decryptedData == Some(p.plaintext)
    ensures p.Placeholder? ==> p.forMode == s.mode
  {
    if s.mode == Encrypt && IsTruthy(s.encryptedData) then EncryptionResult(s.encryptedData.value)
    else if s.mode == Decrypt && IsTruthy(s.decryptedData) then DecryptionResult(s.decryptedData.value)
    else Placeholder(s.mode)
  }

  /** The events that reach the page: its own handlers, and the error setter it passes down. */
  datatype Event =
    | ModeChange(newMode: Mode)
    | Encrypted(token: string)
    | Decrypted(plaintext: string)
    | Reset
    | ClearError
    | ClearSuccess
    | ErrorSet(message: Option<string>)

  /** An event that produces a result for the panel to show. */
  predicate IsSuccessEvent(e: Event) {
    e.Encrypted? || e.Decrypted?
  }

  /** The effect of one event on the page's state. */
  function Step(s: PageState, e: Event): PageState {
    match e
    case ModeChange(m) => PageState(m, None, None, false, None, None)
    case Encrypted(t) => s.(encryptedData := Some(t), showQRCode := true, error := None, success := Some(EncryptSuccessMessage))
    case Decrypted(d) => s.(decryptedData := Some(d), error := None, success := Some(DecryptSuccessMessage))
    case Reset => PageState(s.mode, None, None, false, None, None)
    case ClearError => s.(error := None)
    case ClearSuccess => s.(success := None)
    case ErrorSet(m) => s.(error := m)
  }

  /** The state after a sequence of events, in order. */
  function Run(s: PageState, events: seq<Event>): PageState
    decreases |events|
  {
    if events == [] then s else Run(Step(s, events[0]), events[1..])
  }

  /** Once a mode change has hidden the result, no result is shown until the next successful
      encryption or decryption, whatever else happens in between. */
  lemma {:induction false} NoResultUntilSuccess(s: PageState, events: seq<Event>)
    requires SelectPanel(s).Placeholder?
    requires forall i :: 0 <= i < |events| ==> !IsSuccessEvent(events[i])
    ensures SelectPanel(Run(s, events)).Placeholder?
    ensures Run(s, events).encryptedData == None || Run(s, events).encryptedData == s.encryptedData
    decreases |events|
  {
    if events != [] {
      var s' := Step(s, events[0]);
      assert SelectPanel(s').Placeholder?;
      assert forall i :: 0 <= i < |events[1..]| ==> events[1..][i] == events[i + 1];
      NoResultUntilSuccess(s', events[1..]);
    }
  }

  /** A mode change shows the placeholder of the new mode, and keeps showing it until the
      next successful encryption or decryption. */
  lemma ModeChangeHidesResult(s: PageState, m: Mode, events: seq<Event>)
    requires forall i :: 0 <= i < |events| ==> !IsSuccessEvent(events[i])
    ensures SelectPanel(Step(s, ModeChange(m))) == Placeholder(m)
    ensures SelectPanel(Run(Step(s, ModeChange(m)), events)).Placeholder?
  {
    NoResultUntilSuccess(Step(s, ModeChange(m)), events);
  }

  /** A mode change is a reset that also sets the mode; reset is idempotent. */
  lemma ModeChangeIsReset(s: PageState, m: Mode)
    ensures Step(s, ModeChange(m)) == Step(s.(mode := m), Reset)
    ensures Step(Step(s, Reset), Reset) == Step(s, Reset)
    ensures Step(s, Reset).mode == s.mode
  {
  }

  class Home {
    var mode: Mode
    var encryptedData: Option<string>
    var decryptedData: Option<string>
    var showQRCode: bool
    var error: Option<string>
    var success: Option<string>

    /** The page's state as a value. */
    function State(): PageState
      reads this
    {
      PageState(mode, encryptedData, decryptedData, showQRCode, error, success)
    }

    /** The six `useState` initial values. */
    constructor ()
      ensures State() == InitialState
    {
      mode, encryptedData, decryptedData := Encrypt, None, None;
      showQRCode, error, success := false, None, None;
    }

    /** handleModeChange: the new mode, and every other field back to its initial value. */
    method HandleModeChange(newMode: Mode)
      modifies this
      ensures mode == newMode
      ensures encryptedData == None && decryptedData == None && !showQRCode
      ensures error == None && success == None
      ensures State() == Step(old(State()), ModeChange(newMode))
    {
      mode := newMode;
      encryptedData := None;
      decryptedData := None;
      showQRCode := false;
      error := None;
      success := None;
    }

    /** handleEncrypt: the token, the QR code shown, the error cleared and the success message;
        the mode and the decrypted text stay. */
    method HandleEncrypt(encrypted: string)
      modifies this
      ensures encryptedData == Some(encrypted) && showQRCode
      ensures error == None && success == Some(EncryptSuccessMessage)
      ensures mode == old(mode) && decryptedData == old(decryptedData)
      ensures State() == Step(old(State()), Encrypted(encrypted))
    {
      encryptedData := Some(encrypted);
      showQRCode := true;
      error := None;
      success := Some(EncryptSuccessMessage);
    }

    /** handleDecrypt: the plaintext, the error cleared and the success message; the mode,
        the token and the QR flag stay. */
    method HandleDecrypt(decrypted: string)
      modifies this
      ensures decryptedData == Some(decrypted)
      ensures error == None && success == Some(DecryptSuccessMessage)
      ensures mode == old(mode) && encryptedData == old(encryptedData) && showQRCode == old(showQRCode)
      ensures State() == Step(old(State()), Decrypted(decrypted))
    {
      decryptedData := Some(decrypted);
      error := None;
      success := Some(DecryptSuccessMessage);
    }

    /** setError, the setter handed to both forms. */
    method SetError(message: Option<string>)
      modifies this
      ensures error == message
      ensures State() == old(State()).(error := message)
      ensures State() == Step(old(State()), ErrorSet(message))
    {
      error := message;
    }

    /** clearError: only the error is cleared. */
    method ClearError()
      modifies this
      ensures error == None
      ensures State() == old(State()).(error := None)
      ensures State() == Step(old(State()), Event.ClearError)
    {
      error := None;
    }

    /** clearSuccess: only the success message is cleared. */
    method ClearSuccess()
      modifies this
      ensures success == None
      ensures State() == old(State()).(success := None)
      ensures State() == Step(old(State()), Event.ClearSuccess)
    {
      success := None;
    }

    /** resetForm: everything but the mode back to its initial value. */
    method ResetForm()
      modifies this
      ensures mode == old(mode)
      ensures encryptedData == None && decryptedData == None && !showQRCode
      ensures error == None && success == None
      ensures State() == Step(old(State()), Reset)
    {
      encryptedData := None;
      decryptedData := None;
      showQRCode := false;
      error := None;
      success := None;
    }

    /** handleDownloadQR: returns the file name handed to the canvas export, or `None` when
        there is no non-empty token or no canvas on the page. Nothing in the state changes. */
    method HandleDownloadQR(canvasFound: bool) returns (savedAs: Option<string>)
      ensures savedAs.Some? <==> IsTruthy(encryptedData) && canvasFound
      ensures savedAs.Some? ==> savedAs.value == QrImageFileName
    {
      if !IsTruthy(encryptedData) {
        return None;
      }
      if !canvasFound {
        return None;
      }
      savedAs := Some(QrImageFileName);
    }
  }
}

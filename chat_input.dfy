// `ChatInput`: the chat text area. It caps the text at 2000 UTF-16 code units,
// grows with its content between 24 and 150 pixels, submits on the form's
// submit or on Enter (with the mobile and Shift rules), and takes focus when
// a printable key is typed anywhere else on the page. Its upload button is
// enabled only when the page asks for it. The page's focus and the
// textarea's measured height are parameters; `onSendMessage` and
// `onUploadClick` calls are logged.
module ChatInput {
  import JsString

  const MaxChars := 2000
  const MinHeight := 24
  const MaxHeight := 150

  /** `Math.min(Math.max(x, lo), hi)`. */
  function Clamp(x: int, lo: int, hi: int): (r: int)
    requires lo <= hi
    ensures lo <= r <= hi
    ensures lo <= x <= hi ==> r == x
    ensures x < lo ==> r == lo
    ensures x > hi ==> r == hi
  {
    if x < lo then lo else if x > hi then hi else x
  }

  /** `message.trim().length > 0`. */
  predicate HasValidMessage(message: string)
  {
    |JsString.Trim(message)| > 0
  }

  /** A key press: the key's name and its modifier flags. */
  datatype KeyEvent = KeyEvent(key: string, shiftKey: bool, metaKey: bool, ctrlKey: bool, altKey: bool)

  /** Enter submits, except on mobile without Meta and on desktop with Shift (both insert a new line). */
  predicate EnterSubmits(e: KeyEvent, isMobile: bool)
  {
    e.key == "Enter" && !(isMobile && !e.metaKey) && !(!isMobile && e.shiftKey)
  }

  /** The page-wide key rule: a key whose name is one code unit long, without Ctrl, Meta or Alt, focuses the text area, unless an input or text area already has focus. */
  predicate FocusesTextarea(activeTag: string, e: KeyEvent)
  {
    activeTag != "INPUT" && activeTag != "TEXTAREA" && !(e.ctrlKey || e.metaKey || e.altKey) && JsString.Length(e.key) == 1
  }

  /** The upload button is disabled unless the page shows it as available. */
  predicate UploadButtonDisabled(showUploadButton: bool)
  {
    !showUploadButton
  }

  class ChatInputState {
    var message: string
    var height: int
    var sent: seq<string>
    /** How many times the upload button has called `onUploadClick`. */
    var uploadClicks: nat

    predicate Valid()
      reads this
    {
      JsString.Length(message) <= MaxChars && MinHeight <= height <= MaxHeight
    }

    constructor ()
      ensures Valid() && message == "" && height == MinHeight && sent == [] && uploadClicks == 0
    {
      message := "";
      height := MinHeight;
      sent := [];
      uploadClicks := 0;
    }

    /** `handleMessageChange`: an edit is taken only if it stays within 2000 code units. */
    method HandleMessageChange(newValue: string)
      requires Valid()
      modifies this
      ensures Valid()
      ensures message == if JsString.Length(newValue) <= MaxChars then newValue else old(message)
      ensures height == old(height) && sent == old(sent) && uploadClicks == old(uploadClicks)
    {
      if JsString.Length(newValue) <= MaxChars {
        message := newValue;
      }
    }

    /** A click on the upload button: a disabled button does nothing; an enabled one calls `onUploadClick` if the page gave one. */
    method ClickUpload(showUploadButton: bool, hasOnUploadClick: bool)
      modifies this
      ensures uploadClicks == old(uploadClicks) + (if !UploadButtonDisabled(showUploadButton) && hasOnUploadClick then 1 else 0)
      ensures message == old(message) && height == old(height) && sent == old(sent)
    {
      if showUploadButton && hasOnUploadClick {
        uploadClicks := uploadClicks + 1;
      }
    }

    /** The resize effect run after each message change, given the text area's measured content height. */
    method Resize(scrollHeight: int)
      requires Valid()
      modifies this
      ensures Valid()
      ensures height == Clamp(scrollHeight, MinHeight, MaxHeight)
      ensures message == old(message) && sent == old(sent) && uploadClicks == old(uploadClicks)
    {
      height := Clamp(scrollHeight, MinHeight, MaxHeight);
    }

    /** `handleSubmit`: send the untrimmed text if it has content and nothing is loading; then empty the box and shrink it. */
    method HandleSubmit(isLoading: bool)
      requires Valid()
      modifies this
      ensures Valid()
      ensures HasValidMessage(old(message)) && !isLoading ==>
        sent == old(sent) + [old(message)] && message == "" && height == MinHeight
      ensures !(HasValidMessage(old(message)) && !isLoading) ==>
        sent == old(sent) && message == old(message) && height == old(height)
      ensures uploadClicks == old(uploadClicks)
    {
      if HasValidMessage(message) && !isLoading {
        sent := sent + [message];
        message := "";
        height := MinHeight;
      }
    }

    /** `handleKeyDown`: only an Enter that submits does anything, and then exactly what a submit does. */
    method HandleKeyDown(e: KeyEvent, isMobile: bool, isLoading: bool)
      requires Valid()
      modifies this
      ensures Valid()
      ensures EnterSubmits(e, isMobile) && HasValidMessage(old(message)) && !isLoading ==>
        sent == old(sent) + [old(message)] && message == "" && height == MinHeight
      ensures !(EnterSubmits(e, isMobile) && HasValidMessage(old(message)) && !isLoading) ==>
        sent == old(sent) && message == old(message) && height == old(height)
      ensures uploadClicks == old(uploadClicks)
    {
      if e.key == "Enter" {
        if isMobile && !e.metaKey {
          return;
        }
        if !isMobile && e.shiftKey {
          return;
        }
        HandleSubmit(isLoading);
      }
    }
  }

  /** A message of spaces and line breaks is never sent. */
  lemma BlankIsNotValid(message: string)
    requires forall i :: 0 <= i < |message| ==> JsString.IsWhitespace(message[i])
    ensures !HasValidMessage(message)
  {
    JsString.TrimEmptyIff(message);
  }

  /** A message with a non-whitespace character can be sent. */
  lemma ContentIsValid(message: string, i: nat)
    requires i < |message| && !JsString.IsWhitespace(message[i])
    ensures HasValidMessage(message)
  {
    JsString.TrimEmptyIff(message);
  }

  /** Plain Enter submits on desktop; Shift+Enter on desktop and plain Enter on mobile do not; Meta+Enter does on mobile. */
  lemma EnterRules(e: KeyEvent)
    requires e.key == "Enter"
    ensures !e.shiftKey ==> EnterSubmits(e, false)
    ensures e.shiftKey ==> !EnterSubmits(e, false)
    ensures !e.metaKey ==> !EnterSubmits(e, true)
    ensures e.metaKey ==> EnterSubmits(e, true)
  {
  }

  /**
   * The page-wide key rule: a printable key up to U+FFFF without Ctrl, Meta
   * or Alt focuses the text area unless an input or text area has focus; a
   * named key such as Enter never does, and neither does a key that is one
   * character above U+FFFF, whose name is two code units long.
   */
  lemma FocusRules(activeTag: string, e: KeyEvent)
    ensures activeTag == "INPUT" || activeTag == "TEXTAREA" ==> !FocusesTextarea(activeTag, e)
    ensures e.ctrlKey || e.metaKey || e.altKey ==> !FocusesTextarea(activeTag, e)
    ensures e.key == "Enter" ==> !FocusesTextarea(activeTag, e)
    ensures |e.key| == 1 && e.key[0] as int >= 0x1_0000 ==> !FocusesTextarea(activeTag, e)
    ensures activeTag != "INPUT" && activeTag != "TEXTAREA" && !e.ctrlKey && !e.metaKey && !e.altKey
      && |e.key| == 1 && e.key[0] as int < 0x1_0000
      ==> FocusesTextarea(activeTag, e)
  {
    if |e.key| == 1 {
      assert JsString.Utf16(e.key) == JsString.Utf16Char(e.key[0]);
    }
    if e.key == "Enter" {
      JsString.Utf16Bmp(e.key);
    }
  }

  /**
   * The 2000 bound counts code units, so text made only of characters above
   * U+FFFF is refused from 1001 characters on: each counts twice.
   */
  lemma AstralTextLimit(newValue: string)
    requires forall i :: 0 <= i < |newValue| ==> newValue[i] as int >= 0x1_0000
    ensures JsString.Length(newValue) <= MaxChars <==> |newValue| <= MaxChars / 2
  {
    JsString.LengthAstral(newValue);
  }
}

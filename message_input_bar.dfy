// `MessageInputBar`: the artist page's input. The text is owned by the
// parent: edits within 2000 UTF-16 code units are forwarded to `onMessageChange`,
// the box grows between 48 and 300 pixels, and a valid submission awaits
// `onSubmit` without clearing anything. Both callbacks are logged.
module MessageInputBar {
  import ChatInput
  import JsString

  const MinHeight := 48
  const MaxHeight := 300

  class InputBar {
    var height: int
    var changes: seq<string>
    var submitted: seq<string>

    constructor ()
      ensures height == MinHeight && changes == [] && submitted == []
    {
      height := MinHeight;
      changes := [];
      submitted := [];
    }

    /** `handleMessageChange`: forward the edit only when it stays within 2000 code units. */
    method HandleMessageChange(newValue: string)
      modifies this
      ensures changes == old(changes) + (if JsString.Length(newValue) <= ChatInput.MaxChars then [newValue] else [])
      ensures height == old(height) && submitted == old(submitted)
    {
      if JsString.Length(newValue) <= ChatInput.MaxChars {
        changes := changes + [newValue];
      }
    }

    /** The resize effect for the parent's current text. */
    method Resize(scrollHeight: int)
      modifies this
      ensures MinHeight <= height <= MaxHeight
      ensures height == ChatInput.Clamp(scrollHeight, MinHeight, MaxHeight)
      ensures changes == old(changes) && submitted == old(submitted)
    {
      height := ChatInput.Clamp(scrollHeight, MinHeight, MaxHeight);
    }

    /** `handleSubmit`: hand the message to `onSubmit` when it has content and nothing is loading. */
    method HandleSubmit(message: string, isLoading: bool)
      modifies this
      ensures submitted == old(submitted) + (if ChatInput.HasValidMessage(message) && !isLoading then [message] else [])
      ensures height == old(height) && changes == old(changes)
    {
      if ChatInput.HasValidMessage(message) && !isLoading {
        submitted := submitted + [message];
      }
    }

    /** `handleKeyDown`: the same Enter rules as the chat input; a new line otherwise. */
    method HandleKeyDown(message: string, e: ChatInput.KeyEvent, isMobile: bool, isLoading: bool)
      modifies this
      ensures submitted == old(submitted) +
        (if ChatInput.EnterSubmits(e, isMobile) && ChatInput.HasValidMessage(message) && !isLoading then [message] else [])
      ensures height == old(height) && changes == old(changes)
    {
      if e.key == "Enter" {
        if isMobile && !e.metaKey {
          return;
        }
        if !isMobile && e.shiftKey {
          return;
        }
        HandleSubmit(message, isLoading);
      }
    }
  }
}

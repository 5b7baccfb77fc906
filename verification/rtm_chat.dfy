/**
 * The single-rule chat page (app/rtm/page.tsx): typed text is normalised and
 * recognised only as one of four spellings of Mad Thabi'i, which answer with
 * the rule's image; everything else is answered as not recognised.
 */
module RtmChat {
  import opened Wrappers
  import opened ChatText

  const Welcome := "Selamat datang di Rumus Tajwid Mudah (RTM)! \U{1F393}\n\nSilakan pilih menu di bawah ini :\n\n1. Mad Thabi'i (2 Harakat)"
  const Unrecognised := "Perintah tidak dikenali. Silakan gunakan tombol menu atau ketik \"1\" untuk Mad Thabi'i."
  const Explanation := "Berikut adalah penjelasan Mad Thabi'i:"
  const ImageUrl := "https://raw.githubusercontent.com/ngaosidn/dbTajwid/main/01 - 1 - Mad Thabi'i.jpg"

  /** The four normalised inputs `handleSend` hands to `handleCommand('1')`. */
  predicate Recognised(userMessage: string) {
    || userMessage == "1"
    || userMessage == "mad 2 harakat"
    || userMessage == "mad thabii"
    || userMessage == "mad thabi'i"
  }

  /** The two messages `handleCommand` appends: the echoed command and the image reply. */
  function CommandMessages(command: string): seq<Message> {
    [UserText(if command == "1" then "Mad Thabi'i" else command),
     Message(Bot, Explanation, Some(ImageUrl), None)]
  }

  /** The messages `handleSend` appends for an accepted, normalised input. */
  function SendMessages(userMessage: string): seq<Message> {
    [UserText(userMessage)] +
    if Recognised(userMessage) then CommandMessages("1") else [BotText(Unrecognised)]
  }

  /**
   * A recognised input appends three messages: the typed text, "Mad Thabi'i"
   * and the reply with the rule's image; any other input appends the typed
   * text and the "not recognised" reply.
   */
  lemma SendMessagesSpec(userMessage: string)
    ensures SendMessages(userMessage)[0] == UserText(userMessage)
    ensures |SendMessages(userMessage)| == 3 <==> Recognised(userMessage)
    ensures Recognised(userMessage) ==>
      && SendMessages(userMessage)[1] == UserText("Mad Thabi'i")
      && SendMessages(userMessage)[2].sender == Bot
      && SendMessages(userMessage)[2].imageUrl == Some(ImageUrl)
    ensures !Recognised(userMessage) ==> SendMessages(userMessage) == [UserText(userMessage), BotText(Unrecognised)]
  {
  }

  /**
   * Recognition happens after `trim().toLowerCase()`: white space around the
   * typed text is ignored, and so is the case of its letters.
   */
  lemma RecognisedDespitePadding(pre: string, typed: string, post: string)
    requires forall i :: 0 <= i < |pre| ==> IsSpace(pre[i])
    requires forall i :: 0 <= i < |post| ==> IsSpace(post[i])
    requires typed == [] || (!IsSpace(typed[0]) && !IsSpace(typed[|typed| - 1]))
    ensures Normalise(pre + typed + post) == ToLower(typed)
    ensures Recognised(Normalise(pre + typed + post)) <==> Recognised(ToLower(typed))
  {
    TrimPadded(pre, typed, post);
  }

  /**
   * `toLowerCase` maps U+212A KELVIN SIGN to 'k', so a spelling written with
   * it is recognised too.
   */
  lemma KelvinSignRecognised()
    ensures Recognised(ToLower("Mad 2 Hara\U{212A}at"))
  {
    var typed := "Mad 2 Hara\U{212A}at";
    assert |ToLower(typed)| == 13;
    forall i | 0 <= i < 13 ensures ToLower(typed)[i] == "mad 2 harakat"[i] {
    }
  }

  /** The page's state: the log, the loading flag and the input box. */
  class Chat {
    var messages: seq<Message>
    var loading: bool
    var input: string

    constructor ()
      ensures messages == [BotText(Welcome)] && !loading && input == ""
    {
      messages, loading, input := [BotText(Welcome)], false, "";
    }

    /** The text box's change handler. */
    method SetInput(text: string)
      modifies this`input
      ensures input == text
    {
      input := text;
    }

    /** `handleCommand`: echo the command and answer with the Mad Thabi'i image. */
    method Command(command: string)
      modifies this`messages, this`loading
      ensures !loading
      ensures messages == old(messages) + CommandMessages(command)
    {
      loading := true;
      messages := messages + [UserText(if command == "1" then "Mad Thabi'i" else command)];
      messages := messages + [Message(Bot, Explanation, Some(ImageUrl), None)];
      loading := false;
    }

    /**
     * `handleSend`: blank input, or input while loading, changes nothing;
     * otherwise the normalised text is answered and the box is emptied.
     */
    method Send()
      modifies this`messages, this`loading, this`input
      ensures Trim(old(input)) == [] || old(loading) ==>
        messages == old(messages) && input == old(input) && loading == old(loading)
      ensures Trim(old(input)) != [] && !old(loading) ==>
        && messages == old(messages) + SendMessages(Normalise(old(input)))
        && input == "" && !loading
    {
      if Trim(input) == [] || loading {
        return;
      }
      var userMessage := Normalise(input);
      input := "";
      Answer(userMessage);
    }

    /** The rest of `handleSend`: append the typed line, then the command or the "not recognised" reply. */
    method Answer(userMessage: string)
      modifies this`messages, this`loading
      ensures !loading
      ensures messages == old(messages) + SendMessages(userMessage)
    {
      loading := true;
      messages := messages + [UserText(userMessage)];
      if Recognised(userMessage) {
        Command("1");
      } else {
        messages := messages + [BotText(Unrecognised)];
      }
      loading := false;
    }

    /** The trash button: back to the single welcome message. */
    method ClearHistory()
      modifies this`messages
      ensures messages == [BotText(Welcome)]
    {
      messages := [BotText(Welcome)];
    }
  }
}

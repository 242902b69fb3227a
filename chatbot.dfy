/** The chat page: the input box, voice input and the send rules. */
module Chatbot {
  import opened Wrappers
  import opened Text
  import opened Schema
  import opened Ui

  /** The body the page posts: `{ content, language }`. */
  datatype ChatRequest = ChatRequest(content: string, language: string)

  /** The guard and argument of `handleSend`: the trimmed input, when it is not blank. */
  function OutgoingContent(input: string): (r: Option<string>)
    ensures r.Some? <==> !AllWhitespace(input)
    ensures r.Some? ==> r.value == Trim(input) && r.value != ""
  {
    TrimEmptyIff(input);
    if Trim(input) != "" then Some(Trim(input)) else None
  }

  /** What is sent carries no whitespace at either end and is cut from the input. */
  lemma OutgoingUnpadded(input: string)
    requires OutgoingContent(input).Some?
    ensures var c := OutgoingContent(input).value;
      !IsWhitespace(c[0]) && !IsWhitespace(c[|c| - 1]) && Trim(c) == c &&
      exists i :: OccursAt(input, c, i)
  {
    TrimSlice(input);
    TrimIdempotent(input);
    assert OccursAt(input, Trim(input), TrimOffset(input));
  }

  /** The send button's `disabled`. */
  function SendDisabled(input: string, pending: bool): (disabled: bool)
    ensures pending ==> disabled
    ensures AllWhitespace(input) ==> disabled
  {
    Trim(input) == "" || pending
  }

  /** The button is enabled exactly when something visible is typed and nothing is in flight. */
  lemma SendEnabledIff(input: string, pending: bool)
    ensures !SendDisabled(input, pending) <==> !AllWhitespace(input) && !pending
  {
    TrimEmptyIff(input);
  }

  /** `recognition.lang`. */
  function VoiceLang(language: string): (tag: string)
    ensures tag == "hi-IN" <==> language == "hi"
    ensures tag == "en-IN" <==> language != "hi"
  {
    if language == "hi" then "hi-IN" else "en-IN"
  }

  /** The text area's key rule: Enter sends, Shift+Enter is a newline. */
  function TriggersSend(key: string, shiftKey: bool): (send: bool)
    ensures shiftKey ==> !send
    ensures send ==> key == "Enter"
    ensures key == "Enter" && !shiftKey ==> send
  {
    key == "Enter" && !shiftKey
  }

  datatype Side = Left | Right

  /** A bubble's alignment: the farmer's own messages on the right. */
  function Alignment(message: ChatMessage): (side: Side)
    ensures side == Right <==> message.role == "user"
  {
    if message.role == "user" then Right else Left
  }

  /** The three suggestion chips, in English or in Hindi. */
  function Suggestions(english: bool): (s: seq<string>)
    ensures |s| == 3
  {
    if english then
      ["What crops should I plant this season?", "How to manage pest in wheat crop?", "When to apply fertilizer?"]
    else
      ["\U{0907}\U{0938} \U{092E}\U{094C}\U{0938}\U{092E} \U{092E}\U{0947}\U{0902} \U{092E}\U{0941}\U{091D}\U{0947} \U{0915}\U{094C}\U{0928} \U{0938}\U{0940} \U{092B}\U{0938}\U{0932}\U{0947}\U{0902} \U{0932}\U{0917}\U{093E}\U{0928}\U{0940} \U{091A}\U{093E}\U{0939}\U{093F}\U{090F}?",
       "\U{0917}\U{0947}\U{0939}\U{0942}\U{0902} \U{0915}\U{0940} \U{092B}\U{0938}\U{0932} \U{092E}\U{0947}\U{0902} \U{0915}\U{0940}\U{091F} \U{092A}\U{094D}\U{0930}\U{092C}\U{0902}\U{0927}\U{0928} \U{0915}\U{0948}\U{0938}\U{0947} \U{0915}\U{0930}\U{0947}\U{0902}?",
       "\U{0909}\U{0930}\U{094D}\U{0935}\U{0930}\U{0915} \U{0915}\U{092C} \U{0921}\U{093E}\U{0932}\U{0928}\U{093E} \U{091A}\U{093E}\U{0939}\U{093F}\U{090F}?"]
  }

  /** Every suggestion, once clicked, can be sent as it is. */
  lemma SuggestionsSendable(english: bool, k: nat)
    requires k < 3
    ensures OutgoingContent(Suggestions(english)[k]) == Some(Suggestions(english)[k])
  {
    var s := Suggestions(english)[k];
    TrimUnpadded(s);
  }

  /** The conversation area: skeletons, the bubbles, or the empty state with suggestions. */
  function Conversation(isLoading: bool, messages: Option<seq<ChatMessage>>): (p: Panel<ChatMessage>)
    ensures p.EmptyState? <==> !isLoading && (messages.None? || messages.value == [])
  {
    PanelOf(isLoading, messages)
  }

  /** The page's state; `language` comes from the shared language setting. */
  class ChatPage {
    var input: string
    var isListening: bool
    /** `sendMessageMutation.isPending`. */
    var pending: bool
    const language: string

    constructor (language: string)
      ensures input == "" && !isListening && !pending && this.language == language
    {
      input := "";
      isListening := false;
      pending := false;
      this.language := language;
    }

    /** Typing replaces the input. */
    method OnInputChange(value: string)
      modifies this
      ensures input == value && isListening == old(isListening) && pending == old(pending)
    {
      input := value;
    }

    /** Clicking a suggestion chip replaces the input with its text. */
    method ClickSuggestion(english: bool, k: nat)
      requires k < 3
      modifies this
      ensures input == Suggestions(english)[k]
      ensures isListening == old(isListening) && pending == old(pending)
    {
      input := Suggestions(english)[k];
    }

    /** The recogniser is created with the language's voice tag. */
    method VoiceTag() returns (tag: string)
      ensures tag == VoiceLang(language)
    {
      tag := VoiceLang(language);
    }

    method OnVoiceStart()
      modifies this
      ensures isListening && input == old(input) && pending == old(pending)
    {
      isListening := true;
    }

    method OnVoiceEnd()
      modifies this
      ensures !isListening && input == old(input) && pending == old(pending)
    {
      isListening := false;
    }

    /** A recognised phrase replaces the input. */
    method OnVoiceResult(transcript: string)
      modifies this
      ensures input == transcript && isListening == old(isListening) && pending == old(pending)
    {
      input := transcript;
    }

    /**
     * `handleSend`: posts the trimmed input when it is not blank. The input is
     * kept until the server answers. Nothing here checks `pending`.
     */
    method HandleSend() returns (sent: Option<ChatRequest>)
      modifies this
      ensures sent.Some? <==> !AllWhitespace(old(input))
      ensures sent.Some? ==> sent.value == ChatRequest(Trim(old(input)), language) && pending
      ensures sent.None? ==> pending == old(pending)
      ensures input == old(input) && isListening == old(isListening)
    {
      var content := OutgoingContent(input);
      if content.Some? {
        sent := Some(ChatRequest(content.value, language));
        pending := true;
      } else {
        sent := None;
      }
    }

    /** The send button, which can only be clicked while enabled. */
    method ClickSend() returns (sent: Option<ChatRequest>)
      requires !SendDisabled(input, pending)
      modifies this
      ensures sent == Some(ChatRequest(Trim(old(input)), language)) && pending
      ensures input == old(input) && isListening == old(isListening)
    {
      SendEnabledIff(input, pending);
      sent := HandleSend();
    }

    /** A key press in the text area; Enter sends even while a request is pending. */
    method KeyDown(key: string, shiftKey: bool) returns (sent: Option<ChatRequest>)
      modifies this
      ensures !TriggersSend(key, shiftKey) ==> sent.None? && pending == old(pending)
      ensures TriggersSend(key, shiftKey) ==>
        (sent.Some? <==> !AllWhitespace(old(input))) &&
        (sent.Some? ==> sent.value == ChatRequest(Trim(old(input)), language) && pending) &&
        (sent.None? ==> pending == old(pending))
      ensures input == old(input) && isListening == old(isListening)
    {
      if TriggersSend(key, shiftKey) {
        sent := HandleSend();
      } else {
        sent := None;
      }
    }

    /** `onSuccess`: the input is cleared. */
    method OnSendSuccess()
      requires pending
      modifies this
      ensures input == "" && !pending && isListening == old(isListening)
    {
      input := "";
      pending := false;
    }

    /** A failed send keeps the typed text. */
    method OnSendError()
      requires pending
      modifies this
      ensures input == old(input) && !pending && isListening == old(isListening)
    {
      pending := false;
    }
  }

  /**
   * A session: a failed send keeps the text, which can be sent again with
   * Enter; only the successful one clears the box.
   */
  method SendSession(language: string, typed: string) returns (first: Option<ChatRequest>, afterError: string, second: Option<ChatRequest>, afterSuccess: string)
    requires !AllWhitespace(typed)
    ensures first == second == Some(ChatRequest(Trim(typed), language))
    ensures afterError == typed && afterSuccess == ""
  {
    var page := new ChatPage(language);
    page.OnInputChange(typed);
    SendEnabledIff(typed, false);
    first := page.ClickSend();
    page.OnSendError();
    afterError := page.input;
    second := page.KeyDown("Enter", false);
    page.OnSendSuccess();
    afterSuccess := page.input;
  }
}

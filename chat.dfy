/** The assistant chat (`ChatInterface`): a transcript restored from and
    persisted to browser storage, a prompt field, and a send handler that
    appends the user's message and then exactly one reply. The model call
    is abstracted as its outcome; storage holds the parsed value, not the
    JSON text. */
module Chat {
  import opened Text

  datatype Role = User | Assistant

  datatype Message = Message(role: Role, content: string)

  /** What `localStorage.getItem("chatHistory")` parses to: nothing (or an
      empty string), text `JSON.parse` rejects, an array of messages, or a
      single message object (the form the landing page writes). */
  datatype Stored =
    | Absent
    | Unparsable
    | StoredArray(messages: seq<Message>)
    | StoredObject(message: Message)

  /** What the model call yields: the response text, or a thrown error. */
  datatype ModelOutcome = Replied(text: string) | Failed

  /** The fixed reply shown when the model call fails. */
  const ErrorText: string := "\U{26A0}\U{FE0F} Error fetching Gemini response."

  /** The transcript's initial value: the stored array when there is one,
      otherwise an empty transcript. */
  function Restore(stored: Stored): (chat: seq<Message>)
    ensures stored.StoredArray? ==> chat == stored.messages
    ensures !stored.StoredArray? ==> chat == []
  {
    match stored
    case StoredArray(messages) => messages
    case _ => []
  }

  /** The assistant's reply for a model outcome. */
  function Reply(outcome: ModelOutcome): (m: Message)
    ensures m.role == Assistant
    ensures outcome.Replied? ==> m.content == outcome.text
    ensures outcome.Failed? ==> m.content == ErrorText
  {
    match outcome
    case Replied(text) => Message(Assistant, text)
    case Failed => Message(Assistant, ErrorText)
  }

  /** Persisting a transcript and restoring it gives the same transcript. */
  lemma PersistRestoreRoundTrip(chat: seq<Message>)
    ensures Restore(StoredArray(chat)) == chat
  {
  }

  /** The two messages one send appends: the prompt as the user's message,
      then the reply. */
  function Exchange(prompt: string, outcome: ModelOutcome): (ms: seq<Message>)
    ensures |ms| == 2
    ensures ms[0] == Message(User, prompt)
    ensures ms[1].role == Assistant
    ensures outcome.Replied? ==> ms[1].content == outcome.text
    ensures outcome.Failed? ==> ms[1].content == ErrorText
  {
    [Message(User, prompt), Reply(outcome)]
  }

  /** The chat panel's state. */
  class ChatSession {
    /** The `chat` state: the transcript, oldest first. */
    var chat: seq<Message>
    /** The `loading` state: a model call is in flight. */
    var loading: bool
    /** The `prompt` state: the text in the input field. */
    var prompt: string
    /** The `chatHistory` entry of browser storage. */
    var storage: Stored

    /** The persisting effect runs after every change of the transcript, so
        storage always holds the current transcript. */
    ghost predicate Valid()
      reads this
    {
      storage == StoredArray(chat)
    }

    /** Mounting: the transcript is restored from `saved`, then persisted by
        the effect's first run. */
    constructor (saved: Stored)
      ensures Valid()
      ensures chat == Restore(saved) && !loading && prompt == []
    {
      chat := Restore(saved);
      loading := false;
      prompt := [];
      storage := StoredArray(Restore(saved));
    }

    /** Typing in the field. */
    method SetPrompt(text: string)
      modifies this`prompt
      ensures prompt == text
    {
      prompt := text;
    }

    /** The synchronous half of `handleSend`: a blank prompt does nothing;
        otherwise the user's message is appended and `loading` is set. */
    method BeginSend() returns (started: bool)
      requires Valid()
      modifies this`chat, this`loading, this`storage
      ensures Valid()
      ensures started <==> !IsBlank(old(prompt))
      ensures !started ==> chat == old(chat) && loading == old(loading)
      ensures started ==> chat == old(chat) + [Message(User, prompt)] && loading
    {
      if IsBlank(prompt) {
        return false;
      }
      chat := chat + [Message(User, prompt)];
      storage := StoredArray(chat);
      loading := true;
      return true;
    }

    /** The half after the model call settles: exactly one assistant message
        is appended, `loading` is cleared and the field is emptied, on the
        success and the failure path alike. */
    method CompleteSend(outcome: ModelOutcome)
      requires Valid() && loading
      modifies this
      ensures Valid()
      ensures chat == old(chat) + [Reply(outcome)]
      ensures !loading && prompt == []
    {
      chat := chat + [Reply(outcome)];
      storage := StoredArray(chat);
      loading := false;
      prompt := [];
    }

    /** `handleSend` run to completion without another handler in between.
        The transcript only grows: what was there before is a prefix of what
        is there after. */
    method Send(outcome: ModelOutcome)
      requires Valid()
      modifies this
      ensures Valid()
      ensures old(chat) <= chat
      ensures IsBlank(old(prompt)) ==>
        chat == old(chat) && loading == old(loading) && prompt == old(prompt)
      ensures !IsBlank(old(prompt)) ==>
        && chat == old(chat) + Exchange(old(prompt), outcome)
        && !loading && prompt == []
    {
      var started := BeginSend();
      if started {
        CompleteSend(outcome);
      }
    }

    /** `clearChat`: the transcript is emptied. The storage entry is removed,
        and the effect then persists the new empty transcript. */
    method ClearChat()
      requires Valid()
      modifies this`chat, this`storage
      ensures Valid()
      ensures chat == []
    {
      chat := [];
      storage := Absent;
      storage := StoredArray(chat);
    }
  }

  /** A session on unreadable storage starts empty; a blank prompt sends
      nothing; a real prompt yields the user's message and then the error
      reply; clearing leaves an empty transcript that survives a reload. */
  method ChatScenario(text: string) returns (initial: seq<Message>, afterBlank: seq<Message>, afterSend: seq<Message>, afterClear: seq<Message>, reloaded: seq<Message>)
    requires !IsBlank(text)
    ensures initial == [] && afterBlank == []
    ensures afterSend == [Message(User, text), Message(Assistant, ErrorText)]
    ensures afterClear == [] && reloaded == []
  {
    var session := new ChatSession(Unparsable);
    initial := session.chat;
    session.SetPrompt("  ");
    assert IsBlank("  ") by {
      assert TrimStart("  ") == [];
    }
    session.Send(Replied("ignored"));
    afterBlank := session.chat;
    session.SetPrompt(text);
    session.Send(Failed);
    afterSend := session.chat;
    session.ClearChat();
    afterClear := session.chat;
    var next := new ChatSession(session.storage);
    reloaded := next.chat;
  }
}

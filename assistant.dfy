/** The chat page of app/ai-assistant/page.tsx: an append-only list of
    messages, a send handler guarded against blank input that adds the
    user's message and exactly one reply, a reset to a single greeting, and
    the plain-text transcript the page downloads. */
module Chat {
  import opened Text
  import opened Outcomes

  datatype Sender = User | Assistant

  /** `timestamp` is the message's `Date` in milliseconds. */
  datatype Message = Message(id: string, sender: Sender, content: string, timestamp: int)

  /** The greeting the page starts with, one element per line. */
  function WelcomeLines(): seq<string>
  {
    [ "Hello! I'm SAHAYAK, your AI Teaching Companion. I'm here to help you with:", "",
      "\U{2022} Creating lesson plans and educational content",
      "\U{2022} Generating worksheets and assignments  ",
      "\U{2022} Explaining complex topics in simple terms",
      "\U{2022} Suggesting teaching activities and methods",
      "\U{2022} Answering questions about curriculum and pedagogy",
      "\U{2022} Providing educational resources and ideas", "",
      "How can I assist you with your teaching today?" ]
  }

  function WelcomeText(): string
  {
    JoinWith(WelcomeLines(), "\n")
  }

  /** The greeting left by `clearConversation`. */
  const ClearedGreeting := "Hello! I'm SAHAYAK, your AI Teaching Companion. How can I assist you with your teaching today?"

  const ErrorPreamble := "I apologize, but I encountered an error while processing your request. Please try again or rephrase your question.\n\nError: "

  /** The reply added for an answered or failed request, with id
      `(Date.now() + 1).toString()` from the clock read `repliedAt` and
      timestamp `new Date()` from the later read `repliedTime`, both taken
      when the call settled. */
  function Reply(outcome: Outcome<string>, repliedAt: nat, repliedTime: int): (m: Message)
    ensures m.sender == Assistant && m.id == NatToString(repliedAt + 1) && m.timestamp == repliedTime
    ensures outcome.Resolved? ==> m.content == outcome.value
    ensures outcome.Rejected? ==>
      var msg := MessageOr(outcome.reason, "Failed to generate response");
      |m.content| >= |msg| + 7 && m.content[|m.content| - |msg| - 7..] == "Error: " + msg
  {
    match outcome
    case Resolved(response) => Message(NatToString(repliedAt + 1), Assistant, response, repliedTime)
    case Rejected(e) =>
      var msg := MessageOr(e, "Failed to generate response");
      var content := ErrorPreamble + msg;
      assert content[|content| - |msg| - 7..] == ErrorPreamble[|ErrorPreamble| - 7..] + msg;
      Message(NatToString(repliedAt + 1), Assistant, content, repliedTime)
  }

  // ---------------------------------------------------------- transcript

  /** One message of the saved conversation. */
  function RenderMessage(m: Message): string
  {
    (if m.sender == User then "You" else "SAHAYAK") + ": " + m.content
  }

  function RenderAll(ms: seq<Message>): (r: seq<string>)
    ensures |r| == |ms|
    ensures forall i :: 0 <= i < |ms| ==> r[i] == RenderMessage(ms[i])
  {
    if ms == [] then [] else RenderAll(ms[..|ms| - 1]) + [RenderMessage(ms[|ms| - 1])]
  }

  /** `handleSaveConversation`'s text: every message rendered in order,
      separated by blank lines. */
  function Transcript(ms: seq<Message>): string
  {
    JoinWith(RenderAll(ms), "\n\n")
  }

  /** A message added to the conversation adds a blank line and its
      rendering at the end of the transcript, which is otherwise unchanged. */
  lemma TranscriptAppend(ms: seq<Message>, m: Message)
    requires ms != []
    ensures Transcript(ms + [m]) == Transcript(ms) + "\n\n" + RenderMessage(m)
  {
    assert (ms + [m])[..|ms|] == ms;
    JoinWithAppend(RenderAll(ms), "\n\n", RenderMessage(m));
  }

  /** Each rendering names its sender before the content: "You: " for the
      user and "SAHAYAK: " for the assistant. */
  lemma RenderMessageSender(m: Message)
    ensures m.sender == User <==> StartsWith(RenderMessage(m), "You: ")
    ensures m.sender == Assistant <==> StartsWith(RenderMessage(m), "SAHAYAK: ")
    ensures m.sender == User ==> RenderMessage(m)[5..] == m.content
    ensures m.sender == Assistant ==> RenderMessage(m)[9..] == m.content
  {
    var r := RenderMessage(m);
    if m.sender == User {
      assert r[..5] == "You: ";
      assert r[0] != "SAHAYAK: "[0];
    } else {
      assert r[..9] == "SAHAYAK: ";
      assert r[0] != "You: "[0];
    }
  }

  /** `new Date().toISOString().split("T")[0]`: the text before the first
      "T". */
  function BeforeT(s: string): (r: string)
    ensures |r| <= |s| && r == s[..|r|]
    ensures 'T' !in r
    ensures |r| < |s| ==> s[|r|] == 'T'
  {
    if s == [] || s[0] == 'T' then [] else [s[0]] + BeforeT(s[1..])
  }

  function ConversationFilename(isoNow: string): string
  {
    "sahayak-conversation-" + BeforeT(isoNow) + ".txt"
  }

  /** For an ISO timestamp "YYYY-MM-DDTHH:mm:ss.sssZ" the file is named after
      its date part. */
  lemma ConversationFilenameDate(isoNow: string)
    requires |isoNow| > 10 && isoNow[10] == 'T' && 'T' !in isoNow[..10]
    ensures ConversationFilename(isoNow) == "sahayak-conversation-" + isoNow[..10] + ".txt"
  {
  }

  // ------------------------------------------------------------- the page

  class ChatPage {
    var messages: seq<Message>
    var inputMessage: string
    var isLoading: bool
    var error: string

    constructor (now: int)
      ensures messages == [Message("1", Assistant, WelcomeText(), now)]
      ensures inputMessage == "" && !isLoading && error == ""
    {
      messages := [Message("1", Assistant, WelcomeText(), now)];
      inputMessage := "";
      isLoading := false;
      error := "";
    }

    /** `handleSendMessage`. Blank input changes nothing. Otherwise the
        trimmed input is appended as the user's message (id from the clock
        read `sentAt`, timestamp from the read `sentTime`), the input is
        cleared, `respond` answers the request for
        the trimmed text, and exactly one reply follows it; `isLoading` ends
        false and `error` holds the failure message, if any. */
    method HandleSendMessage(sentAt: nat, sentTime: int, repliedAt: nat, repliedTime: int,
                             respond: string -> Outcome<string>)
      modifies this
      ensures Trim(old(inputMessage)) == [] ==>
        messages == old(messages) && inputMessage == old(inputMessage)
        && isLoading == old(isLoading) && error == old(error)
      ensures Trim(old(inputMessage)) != [] ==>
        var text := Trim(old(inputMessage));
        var outcome := respond(text);
        && messages == old(messages) + [Message(NatToString(sentAt), User, text, sentTime),
                                        Reply(outcome, repliedAt, repliedTime)]
        && inputMessage == "" && !isLoading
        && error == (if outcome.Resolved? then "" else MessageOr(outcome.reason, "Failed to generate response"))
    {
      var text := Trim(inputMessage);
      if text == [] {
        return;
      }
      var userMessage := Message(NatToString(sentAt), User, text, sentTime);
      messages := messages + [userMessage];
      inputMessage := "";
      isLoading := true;
      error := "";
      var outcome := respond(userMessage.content);
      match outcome {
        case Resolved(response) =>
          messages := messages + [Message(NatToString(repliedAt + 1), Assistant, response, repliedTime)];
        case Rejected(e) =>
          var msg := MessageOr(e, "Failed to generate response");
          error := msg;
          messages := messages + [Message(NatToString(repliedAt + 1), Assistant, ErrorPreamble + msg, repliedTime)];
      }
      isLoading := false;
    }

    /** `handleQuickPrompt`: the prompt becomes the input. */
    method HandleQuickPrompt(prompt: string)
      modifies this
      ensures inputMessage == prompt
      ensures messages == old(messages) && isLoading == old(isLoading) && error == old(error)
    {
      inputMessage := prompt;
    }

    /** `clearConversation`: only the short greeting remains. */
    method ClearConversation(now: int)
      modifies this
      ensures messages == [Message("1", Assistant, ClearedGreeting, now)]
      ensures inputMessage == old(inputMessage) && isLoading == old(isLoading) && error == old(error)
    {
      messages := [Message("1", Assistant, ClearedGreeting, now)];
    }
  }

  /** An accepted send adds exactly two parts to the transcript: "You: "
      with the user's message, then "SAHAYAK: " with the reply. */
  lemma SendExtendsTranscript(history: seq<Message>, user: Message, reply: Message)
    requires history != [] && user.sender == User && reply.sender == Assistant
    ensures Transcript(history + [user, reply])
         == Transcript(history) + "\n\nYou: " + user.content + "\n\nSAHAYAK: " + reply.content
  {
    TranscriptAppend(history, user);
    TranscriptAppend(history + [user], reply);
    assert history + [user] + [reply] == history + [user, reply];
  }
}

/** The coach chat (app/(tabs)/coach.tsx): an append-only message list that starts with
    one greeting; each accepted send adds the user's message and then exactly one AI
    message, the reply or a fixed apology. */
module Coach {
  import opened Wrappers
  import opened Types
  import Api

  const GreetingText: string :=
    "Hi! I'm your AI fitness coach. I'm here to help you with nutrition advice, workout tips, and motivation. How can I assist you today?"
  const ApologyText: string :=
    "I'm sorry, I'm having trouble responding right now. Please try again later."

  const QuickQuestions: seq<string> := [
    "What should I eat for breakfast?",
    "How do I lose weight faster?",
    "Best exercises for beginners?",
    "How much protein do I need?",
    "Tips for staying motivated?"
  ]

  // ---------------------------------------------------------------------------
  // String.prototype.trim

  /** The characters JavaScript's `trim` removes: WhiteSpace and LineTerminator. */
  predicate IsJsWhitespace(c: char) {
    var n := c as int;
    n == 0x09 || n == 0x0A || n == 0x0B || n == 0x0C || n == 0x0D || n == 0x20 || n == 0xA0
    || n == 0x1680 || (0x2000 <= n <= 0x200A) || n == 0x2028 || n == 0x2029 || n == 0x202F
    || n == 0x205F || n == 0x3000 || n == 0xFEFF
  }

  function TrimStart(s: string): string
    decreases |s|
  {
    if s != [] && IsJsWhitespace(s[0]) then TrimStart(s[1..]) else s
  }

  function TrimEnd(s: string): string
    decreases |s|
  {
    if s != [] && IsJsWhitespace(s[|s| - 1]) then TrimEnd(s[..|s| - 1]) else s
  }

  function Trim(s: string): string {
    TrimEnd(TrimStart(s))
  }

  predicate AllWhitespace(s: string) {
    forall i :: 0 <= i < |s| ==> IsJsWhitespace(s[i])
  }

  lemma {:induction false} TrimStartEmpty(s: string)
    ensures TrimStart(s) == [] <==> AllWhitespace(s)
    decreases |s|
  {
    if s != [] && IsJsWhitespace(s[0]) {
      TrimStartEmpty(s[1..]);
      assert AllWhitespace(s[1..]) ==> AllWhitespace(s) by {
        if AllWhitespace(s[1..]) {
          forall i | 0 <= i < |s| ensures IsJsWhitespace(s[i]) {
            if i > 0 { assert s[i] == s[1..][i - 1]; }
          }
        }
      }
    }
  }

  lemma {:induction false} TrimEndEmptyOnlyIfEmpty(s: string)
    requires s == [] || !IsJsWhitespace(s[0])
    ensures TrimEnd(s) == [] <==> s == []
    decreases |s|
  {
    if s != [] && IsJsWhitespace(s[|s| - 1]) {
      assert |s| > 1;
      TrimEndEmptyOnlyIfEmpty(s[..|s| - 1]);
    }
  }

  /** `!inputText.trim()`: the input is blank exactly when every character is whitespace. */
  lemma TrimEmptyIffAllWhitespace(s: string)
    ensures Trim(s) == [] <==> AllWhitespace(s)
  {
    TrimStartEmpty(s);
    TrimStartDropsWhitespace(s);
    TrimEndEmptyOnlyIfEmpty(TrimStart(s));
  }

  lemma {:induction false} TrimStartDropsWhitespace(s: string)
    ensures TrimStart(s) == [] || !IsJsWhitespace(TrimStart(s)[0])
    decreases |s|
  {
    if s != [] && IsJsWhitespace(s[0]) {
      TrimStartDropsWhitespace(s[1..]);
    }
  }

  /** The input a send ignores. */
  predicate IsBlank(text: string) {
    Trim(text) == []
  }

  /** The send button is enabled while the trimmed input is not empty and no reply is pending. */
  predicate CanSend(inputText: string, loading: bool) {
    !IsBlank(inputText) && !loading
  }

  /** The send button is enabled exactly when no reply is pending and the input holds
      at least one character that is not whitespace. */
  lemma SendButtonEnabled(inputText: string, loading: bool)
    ensures CanSend(inputText, loading) <==> !loading && exists i :: 0 <= i < |inputText| && !IsJsWhitespace(inputText[i])
  {
    TrimEmptyIffAllWhitespace(inputText);
  }

  /** Quick questions are shown while the list holds at most the greeting. */
  predicate ShowQuickQuestions(messages: seq<ChatMessage>) {
    |messages| <= 1
  }

  // ---------------------------------------------------------------------------
  // The message list

  function UserMessage(id: string, timestamp: string, text: string): ChatMessage {
    ChatMessage(id, text, User, timestamp, Text)
  }

  /** The AI message a send appends: the reply on success, the apology otherwise. */
  function AiMessage(id: string, timestamp: string, reply: Result<string, Api.JsError>): (m: ChatMessage)
    ensures m.sender == Ai && m.id == id
    ensures reply.Ok? ==> m.content == reply.value
    ensures reply.Err? ==> m.content == ApologyText
  {
    ChatMessage(id, if reply.Ok? then reply.value else ApologyText, Ai, timestamp, Text)
  }

  /** The list alternates: the greeting, then user/AI pairs. */
  ghost predicate Alternating(messages: seq<ChatMessage>) {
    && |messages| % 2 == 1
    && forall i :: 0 <= i < |messages| ==> messages[i].sender == (if i % 2 == 1 then User else Ai)
  }

  function CountFrom(messages: seq<ChatMessage>, who: Sender): nat
    decreases |messages|
  {
    if messages == [] then 0
    else CountFrom(messages[..|messages| - 1], who) + (if messages[|messages| - 1].sender == who then 1 else 0)
  }

  /** One accepted send keeps the list alternating and adds one user and one AI message. */
  lemma {:induction false} SendKeepsAlternating(messages: seq<ChatMessage>, user: ChatMessage, ai: ChatMessage)
    requires Alternating(messages) && user.sender == User && ai.sender == Ai
    ensures Alternating(messages + [user, ai])
    ensures CountFrom(messages + [user, ai], User) == CountFrom(messages, User) + 1
    ensures CountFrom(messages + [user, ai], Ai) == CountFrom(messages, Ai) + 1
  {
    var after := messages + [user, ai];
    assert after[..|after| - 1] == messages + [user];
    assert (messages + [user])[..|messages|] == messages;
  }

  /** An alternating list of length 2k+1 holds k user messages and k+1 AI messages: after
      k accepted sends there are k user messages, each followed by one AI message. */
  lemma {:induction false} AlternatingCounts(messages: seq<ChatMessage>)
    requires Alternating(messages)
    ensures CountFrom(messages, User) == |messages| / 2
    ensures CountFrom(messages, Ai) == |messages| / 2 + 1
    decreases |messages|
  {
    if |messages| > 1 {
      var shorter := messages[..|messages| - 2];
      assert Alternating(shorter) by {
        forall i | 0 <= i < |shorter| ensures shorter[i].sender == (if i % 2 == 1 then User else Ai) {
          assert shorter[i] == messages[i];
        }
      }
      AlternatingCounts(shorter);
      SendKeepsAlternating(shorter, messages[|messages| - 2], messages[|messages| - 1]);
      assert shorter + [messages[|messages| - 2], messages[|messages| - 1]] == messages;
    } else {
      assert messages[..0] == [];
    }
  }

  // ---------------------------------------------------------------------------
  // The context sent with a message

  /** The wire role of a sender. */
  function RoleOf(sender: Sender): string {
    match sender
    case User => "user"
    case Ai => "assistant"
  }

  /** The context as the screen passes it: the ChatMessage records themselves, spread
      into the request, so no element has a `role` field. */
  function AsWrittenContext(messages: seq<ChatMessage>): (ctx: seq<Api.WireMessage>)
    ensures |ctx| == |messages|
    ensures forall i :: 0 <= i < |ctx| ==> ctx[i] == Api.WireMessage(None, messages[i].content)
  {
    if messages == [] then [] else AsWrittenContext(messages[..|messages| - 1]) + [Api.WireMessage(None, messages[|messages| - 1].content)]
  }

  /** The context the chat endpoint expects: each message's content under the role of its sender. */
  function RoleTaggedContext(messages: seq<ChatMessage>): (ctx: seq<Api.WireMessage>)
    ensures |ctx| == |messages|
    ensures forall i {:trigger ctx[i]} :: 0 <= i < |ctx| ==> ctx[i] == Api.WireMessage(Some(RoleOf(messages[i].sender)), messages[i].content)
  {
    if messages == [] then [] else RoleTaggedContext(messages[..|messages| - 1]) + [Api.WireMessage(Some(RoleOf(messages[|messages| - 1].sender)), messages[|messages| - 1].content)]
  }

  /** As written, every request the screen sends is malformed: the list always holds the
      greeting, and its spread record names no role. */
  lemma AsWrittenRequestLacksRoles(text: string, messages: seq<ChatMessage>)
    requires |messages| > 0
    ensures !Api.WellFormedChat(Api.ChatMessages(text, AsWrittenContext(messages)))
  {
  }

  /** With role-tagged context every request is well formed, and its middle is the prior
      list, in order, message by message. */
  lemma RoleTaggedRequestWellFormed(text: string, messages: seq<ChatMessage>)
    ensures var msgs := Api.ChatMessages(text, RoleTaggedContext(messages));
      && Api.WellFormedChat(msgs)
      && |msgs| == |messages| + 2
      && forall i :: 0 <= i < |messages| ==>
           msgs[i + 1].content == messages[i].content && msgs[i + 1].role == Some(RoleOf(messages[i].sender))
  {
    var ctx := RoleTaggedContext(messages);
    var msgs := Api.ChatMessages(text, ctx);
    forall i | 0 <= i < |msgs| ensures Api.KnownRole(msgs[i].role) {
      if 0 < i < |msgs| - 1 {
        assert msgs[i] == ctx[i - 1];
      }
    }
    forall i | 0 <= i < |messages|
      ensures msgs[i + 1].content == messages[i].content && msgs[i + 1].role == Some(RoleOf(messages[i].sender))
    {
      assert msgs[i + 1] == ctx[i];
    }
  }

  /** Each quick question holds a character that is not whitespace, so it can be sent. */
  lemma QuickQuestionsAreSendable(index: nat)
    requires index < |QuickQuestions|
    ensures !IsBlank(QuickQuestions[index])
  {
    var q := QuickQuestions[index];
    assert q[0] in "WHBT";
    TrimEndEmptyOnlyIfEmpty(q);
  }

  class CoachScreen {
    var messages: seq<ChatMessage>
    var inputText: string
    var loading: bool

    ghost predicate Valid()
      reads this
    {
      Alternating(messages)
    }

    /** The list starts with the greeting alone, so the quick questions are shown. */
    constructor (greetingTimestamp: string)
      ensures Valid()
      ensures messages == [ChatMessage("1", GreetingText, Ai, greetingTimestamp, Text)]
      ensures inputText == [] && !loading && ShowQuickQuestions(messages)
    {
      messages := [ChatMessage("1", GreetingText, Ai, greetingTimestamp, Text)];
      inputText := [];
      loading := false;
    }

    /** The text box's `onChangeText`. */
    method TypeText(text: string)
      modifies this`inputText
      ensures inputText == text
    {
      inputText := text;
    }

    /** `handleQuickQuestion`, called from the button of one of the quick questions:
        fills the input with that question, which is never blank, and appends nothing. */
    method HandleQuickQuestion(index: nat)
      requires index < |QuickQuestions|
      modifies this`inputText
      ensures inputText == QuickQuestions[index] && messages == old(messages)
      ensures !IsBlank(inputText)
    {
      inputText := QuickQuestions[index];
      QuickQuestionsAreSendable(index);
    }

    /** `handleSendMessage`, with the chat endpoint's reply as input and the clock's ids
        and timestamps as parameters. A blank input changes nothing and sends nothing.
        Otherwise the user's text is appended, the input cleared, the request built from
        the list as it was before the send, then one AI message appended, and `loading`
        ends false; the list stays alternating and the quick questions are hidden. */
    method HandleSendMessage(userId: string, userTimestamp: string, aiId: string, aiTimestamp: string,
                             completion: Result<Api.CompletionReply, Api.JsError>)
      returns (request: Option<Api.ChatRequest>)
      requires Valid()
      modifies this`messages, this`inputText, this`loading
      ensures Valid()
      ensures IsBlank(old(inputText)) ==>
        messages == old(messages) && inputText == old(inputText) && loading == old(loading) && request == None
      ensures !IsBlank(old(inputText)) ==>
        var exchange := Api.GetChatResponse(old(inputText), RoleTaggedContext(old(messages)), completion);
        && messages == old(messages) + [UserMessage(userId, userTimestamp, old(inputText)), AiMessage(aiId, aiTimestamp, exchange.1)]
        && inputText == [] && !loading && !ShowQuickQuestions(messages)
        && request == Some(exchange.0)
    {
      if IsBlank(inputText) {
        return None;
      }
      var text := inputText;
      var before := messages;
      var userMessage := UserMessage(userId, userTimestamp, text);
      // The reply is an input, so the exchange can be read off before the list changes.
      var exchange := Api.GetChatResponse(text, RoleTaggedContext(before), completion);
      var aiMessage := AiMessage(aiId, aiTimestamp, exchange.1);
      SendKeepsAlternating(before, userMessage, aiMessage);
      assert before + [userMessage] + [aiMessage] == before + [userMessage, aiMessage];
      messages := messages + [userMessage];
      inputText := [];
      loading := true;
      request := Some(exchange.0);
      messages := messages + [aiMessage];
      loading := false;
    }
  }
}

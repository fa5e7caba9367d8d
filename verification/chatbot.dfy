/** The AI Travel Assistant screen: a keyword responder and the chat
    transcript it answers into. */
module ChatBot {
  import opened Wrappers
  import opened Text
  import opened FirstMatch

  /** The five canned replies, by topic (the multi-line texts are not modelled). */
  datatype Reply = Goa | Kerala | Budget | Food | Fallback

  /** generateBotResponse: substring tests on the lower-cased message, in a
      fixed order, first match wins; total, one reply for every message. */
  function BotReply(userMessage: string): (r: Reply)
    ensures var lower := ToLower(userMessage);
      && (r == Goa <==> Includes(lower, "goa"))
      && (r == Kerala <==> !Includes(lower, "goa") && Includes(lower, "kerala"))
      && (r == Budget <==> !Includes(lower, "goa") && !Includes(lower, "kerala")
                           && (Includes(lower, "budget") || Includes(lower, "cheap")))
      && (r == Food <==> !Includes(lower, "goa") && !Includes(lower, "kerala")
                         && !Includes(lower, "budget") && !Includes(lower, "cheap")
                         && (Includes(lower, "restaurant") || Includes(lower, "food")))
      && (r == Fallback <==> !Includes(lower, "goa") && !Includes(lower, "kerala")
                             && !Includes(lower, "budget") && !Includes(lower, "cheap")
                             && !Includes(lower, "restaurant") && !Includes(lower, "food"))
  {
    var lower := ToLower(userMessage);
    if Includes(lower, "goa") then Goa
    else if Includes(lower, "kerala") then Kerala
    else if Includes(lower, "budget") || Includes(lower, "cheap") then Budget
    else if Includes(lower, "restaurant") || Includes(lower, "food") then Food
    else Fallback
  }

  /** The responder as data: each topic with the keywords that select it, in
      priority order. */
  datatype Topic = Topic(reply: Reply, keywords: seq<string>)

  const Topics: seq<Topic> := [
    Topic(Goa, ["goa"]),
    Topic(Kerala, ["kerala"]),
    Topic(Budget, ["budget", "cheap"]),
    Topic(Food, ["restaurant", "food"])
  ]

  /** Some keyword of `keywords` occurs in `lower`. */
  predicate Mentions(lower: string, keywords: seq<string>) {
    exists w :: w in keywords && Includes(lower, w)
  }

  function TopicRules(lower: string): seq<Rule<Reply>> {
    seq(|Topics|, k requires 0 <= k < |Topics| => Rule(Mentions(lower, Topics[k].keywords), Topics[k].reply))
  }

  /** The reply of the first topic the lower-cased message mentions, else the fallback. */
  function ReplyByTable(userMessage: string): Reply {
    First(TopicRules(ToLower(userMessage))).GetOr(Fallback)
  }

  /** The if-chain of generateBotResponse agrees with the topic table. */
  lemma BotReplyFollowsTable(userMessage: string)
    ensures BotReply(userMessage) == ReplyByTable(userMessage)
  {
    var lower := ToLower(userMessage);
    var rules := TopicRules(lower);
    assert Mentions(lower, ["goa"]) <==> Includes(lower, "goa") by {
      assert "goa" in ["goa"];
    }
    assert Mentions(lower, ["kerala"]) <==> Includes(lower, "kerala") by {
      assert "kerala" in ["kerala"];
    }
    assert Mentions(lower, ["budget", "cheap"]) <==> Includes(lower, "budget") || Includes(lower, "cheap") by {
      assert "budget" in ["budget", "cheap"] && "cheap" in ["budget", "cheap"];
    }
    assert Mentions(lower, ["restaurant", "food"]) <==> Includes(lower, "restaurant") || Includes(lower, "food") by {
      assert "restaurant" in ["restaurant", "food"] && "food" in ["restaurant", "food"];
    }
    assert First(rules) == if rules[0].fires then Some(Goa) else First(rules[1..]);
    assert First(rules[1..]) == if rules[1].fires then Some(Kerala) else First(rules[2..]);
    assert First(rules[2..]) == if rules[2].fires then Some(Budget) else First(rules[3..]);
    assert First(rules[3..]) == if rules[3].fires then Some(Food) else First(rules[4..]);
    assert rules[4..] == [];
  }

  /** The first topic mentioned decides the reply, whatever later topics are mentioned. */
  lemma FirstMentionedTopicWins(userMessage: string, i: nat)
    requires i < |Topics| && Mentions(ToLower(userMessage), Topics[i].keywords)
    requires forall j :: 0 <= j < i ==> !Mentions(ToLower(userMessage), Topics[j].keywords)
    ensures BotReply(userMessage) == Topics[i].reply
  {
    BotReplyFollowsTable(userMessage);
    FirstPicksEarliest(TopicRules(ToLower(userMessage)), i);
  }

  /** The fallback is given exactly when no topic is mentioned. */
  lemma FallbackIffNoTopic(userMessage: string)
    ensures BotReply(userMessage) == Fallback
        <==> forall j :: 0 <= j < |Topics| ==> !Mentions(ToLower(userMessage), Topics[j].keywords)
  {
    var rules := TopicRules(ToLower(userMessage));
    BotReplyFollowsTable(userMessage);
    FirstNoneIff(rules);
    if First(rules).Some? {
      var t := First(rules).value;
      assert t in {Goa, Kerala, Budget, Food} by { FirstOutcomeIsListed(rules); }
    }
  }

  /** Messages that differ only in letter case get the same reply. */
  lemma BotReplyIgnoresCase(a: string, b: string)
    requires EqualIgnoringCase(a, b)
    ensures BotReply(a) == BotReply(b)
  {
    ToLowerIgnoresCase(a, b);
  }

  /** "kerala budget": Kerala is checked before Budget. */
  lemma KeralaBeforeBudget(m: string)
    requires m == "kerala budget"
    ensures BotReply(m) == Kerala
  {
    assert ToLower(m) == m by { ToLowerKeepsLower(m); }
    assert !Includes(m, "goa") by { MissingCharExcludes(m, "goa", 'o'); }
    assert Includes(m, "kerala") by {
      assert m[0..6] == "kerala";
      IncludesOccurrence(m, "kerala", 0);
    }
  }

  /** "Tell me about Goa on a budget": Goa is checked before Budget. */
  lemma GoaBeforeBudget(m: string)
    requires m == "Tell me about Goa on a budget"
    ensures BotReply(m) == Goa
  {
    assert Includes(ToLower(m), "goa") by {
      assert ToLower(m)[14..17] == "goa";
      IncludesOccurrence(ToLower(m), "goa", 14);
    }
  }

  /** What a chat bubble shows: the greeting, text the user typed, or a reply. */
  datatype Body = Greeting | Typed(text: string) | Answer(reply: Reply)

  /** A transcript entry; `id` and `timestamp` stand for the clock readings
      Date.now() and toLocaleTimeString() taken when the message was made. */
  datatype Message = Message(id: nat, body: Body, isUser: bool, timestamp: nat)

  /** The texts of the user's messages, in transcript order. */
  function UserTexts(ms: seq<Message>): seq<string> {
    if ms == [] then []
    else
      var last := ms[|ms| - 1];
      UserTexts(ms[..|ms| - 1]) + (if last.isUser && last.body.Typed? then [last.body.text] else [])
  }

  /** The replies in the transcript, in order. */
  function Answers(ms: seq<Message>): seq<Reply> {
    if ms == [] then []
    else
      var last := ms[|ms| - 1];
      Answers(ms[..|ms| - 1]) + (if last.body.Answer? then [last.body.reply] else [])
  }

  /** The reply to each text, in order. */
  function RepliesTo(texts: seq<string>): (r: seq<Reply>)
    ensures |r| == |texts|
  {
    if texts == [] then [] else RepliesTo(texts[..|texts| - 1]) + [BotReply(texts[|texts| - 1])]
  }

  /** Appending one message extends the user texts and the replies by at most that message. */
  lemma AppendMessage(ms: seq<Message>, m: Message)
    ensures UserTexts(ms + [m]) == UserTexts(ms) + (if m.isUser && m.body.Typed? then [m.body.text] else [])
    ensures Answers(ms + [m]) == Answers(ms) + (if m.body.Answer? then [m.body.reply] else [])
  {
    assert (ms + [m])[..|ms|] == ms;
  }

  /** The transcript opens with the one greeting; every user message is
      answered, in order, by the reply to its own text, except the last ones,
      whose texts are `pending`; the typing indicator is only shown while a
      reply is pending. */
  ghost predicate Consistent(ms: seq<Message>, pending: seq<string>, loading: bool) {
    && |ms| >= 1
    && ms[0].body == Greeting && !ms[0].isUser
    && (forall k :: 1 <= k < |ms| ==> ms[k].body != Greeting)
    && (forall k :: 0 <= k < |ms| ==> (ms[k].isUser <==> ms[k].body.Typed?))
    && |pending| <= |UserTexts(ms)|
    && UserTexts(ms)[|UserTexts(ms)| - |pending|..] == pending
    && Answers(ms) == RepliesTo(UserTexts(ms)[..|UserTexts(ms)| - |pending|])
    && (loading ==> pending != [])
  }

  /** Sending a text keeps the transcript consistent, with that text pending. */
  lemma SendKeepsConsistent(ms: seq<Message>, pending: seq<string>, loading: bool, text: string, now: nat)
    requires Consistent(ms, pending, loading)
    ensures Consistent(ms + [Message(now, Typed(text), true, now)], pending + [text], true)
  {
    var m := Message(now, Typed(text), true, now);
    var sentTexts := UserTexts(ms);
    var n := |sentTexts| - |pending|;
    AppendMessage(ms, m);
    assert (sentTexts + [text])[..n] == sentTexts[..n];
    assert (sentTexts + [text])[n..] == pending + [text];
  }

  /** Delivering the reply to the oldest pending text keeps the transcript
      consistent, with that text answered. */
  lemma DeliverKeepsConsistent(ms: seq<Message>, pending: seq<string>, loading: bool, now: nat)
    requires Consistent(ms, pending, loading) && pending != []
    ensures Consistent(ms + [Message(now + 1, Answer(BotReply(pending[0])), false, now)], pending[1..], false)
  {
    var text := pending[0];
    var m := Message(now + 1, Answer(BotReply(text)), false, now);
    var sentTexts := UserTexts(ms);
    var n := |sentTexts| - |pending|;
    assert sentTexts[n] == text by {
      assert sentTexts[n..][0] == pending[0];
    }
    AppendMessage(ms, m);
    assert sentTexts[..n + 1][..n] == sentTexts[..n];
    assert RepliesTo(sentTexts[..n + 1]) == RepliesTo(sentTexts[..n]) + [BotReply(text)];
    assert sentTexts[n + 1..] == pending[1..];
    var ms' := ms + [m];
    assert UserTexts(ms') == sentTexts;
    assert |UserTexts(ms')| - |pending[1..]| == n + 1;
    assert Answers(ms') == RepliesTo(sentTexts[..n + 1]);
    assert forall k :: 1 <= k < |ms'| ==> ms'[k].body != Greeting;
    assert forall k :: 0 <= k < |ms'| ==> (ms'[k].isUser <==> ms'[k].body.Typed?);
  }

  /** Local state of ChatBotScreen. `pending` holds, in order, the texts whose
      1000 ms reply timer has been scheduled and has not fired yet; timers of
      equal delay fire in the order they were scheduled. */
  class ChatScreen {
    var messages: seq<Message>
    var inputText: string
    var loading: bool
    var pending: seq<string>

    ghost predicate Valid()
      reads this
    {
      Consistent(messages, pending, loading)
    }

    /** The suggested prompts are offered only while the greeting is alone. */
    predicate ShowsSuggestions()
      reads this
    {
      |messages| == 1
    }

    /** The send button is enabled only for non-blank input. */
    predicate CanSend(): (enabled: bool)
      reads this
      ensures enabled <==> !IsBlank(inputText)
    {
      TrimEmptyIffBlank(inputText);
      Trim(inputText) != []
    }

    /** The screen mounts with the greeting alone, empty input and no reply pending. */
    constructor (now: nat)
      ensures Valid()
      ensures messages == [Message(1, Greeting, false, now)]
      ensures inputText == [] && !loading && pending == []
      ensures ShowsSuggestions()
    {
      messages := [Message(1, Greeting, false, now)];
      inputText := [];
      loading := false;
      pending := [];
    }

    /** handleSend: blank input is ignored; otherwise the typed text, untrimmed,
        is appended as a user message, the input is cleared, the typing
        indicator is shown and the reply timer is scheduled for that text. */
    method HandleSend(now: nat)
      requires Valid()
      modifies this
      ensures Valid()
      ensures IsBlank(old(inputText)) ==>
        messages == old(messages) && inputText == old(inputText)
        && loading == old(loading) && pending == old(pending)
      ensures !IsBlank(old(inputText)) ==>
        messages == old(messages) + [Message(now, Typed(old(inputText)), true, now)]
        && inputText == [] && loading && pending == old(pending) + [old(inputText)]
      ensures !old(CanSend()) ==> messages == old(messages) && pending == old(pending)
      ensures !IsBlank(old(inputText)) ==> !ShowsSuggestions()
    {
      TrimEmptyIffBlank(inputText);
      if Trim(inputText) == [] {
        return;
      }
      SendKeepsConsistent(messages, pending, loading, inputText, now);
      pending := pending + [inputText];
      messages := messages + [Message(now, Typed(inputText), true, now)];
      inputText := [];
      loading := true;
    }

    /** The reply timer of the oldest pending send fires: the reply to the
        text as it was sent (not the cleared input) is appended, earlier
        messages keep their order, and the typing indicator is hidden. */
    method DeliverReply(now: nat)
      requires Valid() && pending != []
      modifies this
      ensures Valid()
      ensures messages == old(messages) + [Message(now + 1, Answer(BotReply(old(pending)[0])), false, now)]
      ensures pending == old(pending)[1..] && !loading && inputText == old(inputText)
    {
      DeliverKeepsConsistent(messages, pending, loading, now);
      messages := messages + [Message(now + 1, Answer(BotReply(pending[0])), false, now)];
      pending := pending[1..];
      loading := false;
    }

    /** onChangeText of the input box. */
    method ChangeText(text: string)
      modifies this
      ensures inputText == text
      ensures messages == old(messages) && loading == old(loading) && pending == old(pending)
    {
      inputText := text;
    }

    /** handleSuggestion: a suggested prompt replaces the input; it is not sent. */
    method HandleSuggestion(suggestion: string)
      modifies this
      ensures inputText == suggestion
      ensures messages == old(messages) && loading == old(loading) && pending == old(pending)
    {
      inputText := suggestion;
    }
  }
}

/** The companion chat of goddessgpt-ui/components/chat/ChatInterface.tsx: a
    welcome message, the user's turn and a canned reply chosen by keyword
    after a one-second delay. The delay is modelled as a queue of pending
    replies that the environment resolves with `ResolveReply`. */
module CompanionChat {
  import opened Js
  import opened KeywordMatch

  datatype Role = User | Assistant

  datatype ChatMessage = ChatMessage(id: string, role: Role, content: string)

  const AnxietyReply :=
      "It's completely normal to feel anxious or "
      + "stressed sometimes. Try deep breathing exercises: "
      + "breathe in for 4 counts, hold for 4, and exhale "
      + "for 6. This can help calm your nervous system. "
      + "Would you like to talk more about what's causing "
      + "your anxiety?"
  const SadnessReply :=
      "I'm sorry to hear you're feeling this way. Your "
      + "feelings are valid. Sometimes talking to someone "
      + "you trust or a mental health professional can "
      + "really help. Would it be possible for you to "
      + "reach out to someone close to you today?"
  const RelationshipReply :=
      "Relationships can be complex! Communication is "
      + "often key. Could you share a bit more about the "
      + "specific situation, so I can offer more tailored "
      + "support?"
  const SleepReply :=
      "Quality sleep is so important for mental and "
      + "physical wellbeing. Are you having trouble "
      + "falling asleep, staying asleep, or waking up "
      + "refreshed? There are different strategies "
      + "depending on your specific sleep challenges."
  const PainReply :=
      "I'm sorry you're experiencing pain. While I can "
      + "offer some general wellness advice, it's "
      + "important to consult with a healthcare provider "
      + "for persistent or severe pain. Would you like "
      + "some general self-care tips that might help?"
  const ThanksReply :=
      "You're very welcome! I'm here to support you "
      + "whenever you need. Is there anything else I can "
      + "help you with today?"
  const GreetingReply :=
      "Hello there! How are you feeling today? I'm here "
      + "to listen and provide support for whatever you "
      + "might be going through."
  const FallbackReply :=
      "Thank you for sharing that with me. I'm here to "
      + "listen and support you. Could you tell me a bit "
      + "more about how this is affecting you, so I can "
      + "better understand how to help?"

  const ReplyKeywordGroups: seq<seq<string>> := [
    ["anxiety", "stress", "worried"],
    ["sad", "depression", "lonely"],
    ["relationship", "partner", "friend"],
    ["tired", "exhausted", "sleep"],
    ["pain", "headache", "period pain"],
    ["thank"],
    ["hello", "hi", "hey"]]

  const ReplyTexts: seq<string> :=
    [AnxietyReply, SadnessReply, RelationshipReply, SleepReply, PainReply, ThanksReply, GreetingReply, FallbackReply]

  /** `getMockResponse`: an if-chain over the lower-cased input. */
  function GetMockResponse(userInput: string): (r: string)
    ensures r in ReplyTexts
  {
    var input := ToLower(userInput);
    if Contains(input, "anxiety") || Contains(input, "stress") || Contains(input, "worried") then AnxietyReply
    else if Contains(input, "sad") || Contains(input, "depression") || Contains(input, "lonely") then SadnessReply
    else if Contains(input, "relationship") || Contains(input, "partner") || Contains(input, "friend") then RelationshipReply
    else if Contains(input, "tired") || Contains(input, "exhausted") || Contains(input, "sleep") then SleepReply
    else if Contains(input, "pain") || Contains(input, "headache") || Contains(input, "period pain") then PainReply
    else if Contains(input, "thank") then ThanksReply
    else if Contains(input, "hello") || Contains(input, "hi") || Contains(input, "hey") then GreetingReply
    else FallbackReply
  }

  /** Each keyword group matches exactly when the corresponding test of the
      if-chain holds. */
  lemma KeywordGroupsAreTheTests(s: string)
    ensures var g := ReplyKeywordGroups;
            && (MatchesAny(s, g[0]) <==> Contains(s, "anxiety") || Contains(s, "stress") || Contains(s, "worried"))
            && (MatchesAny(s, g[1]) <==> Contains(s, "sad") || Contains(s, "depression") || Contains(s, "lonely"))
            && (MatchesAny(s, g[2]) <==> Contains(s, "relationship") || Contains(s, "partner") || Contains(s, "friend"))
            && (MatchesAny(s, g[3]) <==> Contains(s, "tired") || Contains(s, "exhausted") || Contains(s, "sleep"))
            && (MatchesAny(s, g[4]) <==> Contains(s, "pain") || Contains(s, "headache") || Contains(s, "period pain"))
            && (MatchesAny(s, g[5]) <==> Contains(s, "thank"))
            && (MatchesAny(s, g[6]) <==> Contains(s, "hello") || Contains(s, "hi") || Contains(s, "hey"))
  {
    var g := ReplyKeywordGroups;
    assert MatchesAny(s, g[0]) <==> Contains(s, "anxiety") || Contains(s, "stress") || Contains(s, "worried") by {
      assert g[0][0] == "anxiety" && g[0][1] == "stress" && g[0][2] == "worried";
    }
    assert MatchesAny(s, g[1]) <==> Contains(s, "sad") || Contains(s, "depression") || Contains(s, "lonely") by {
      assert g[1][0] == "sad" && g[1][1] == "depression" && g[1][2] == "lonely";
    }
    assert MatchesAny(s, g[2]) <==> Contains(s, "relationship") || Contains(s, "partner") || Contains(s, "friend") by {
      assert g[2][0] == "relationship" && g[2][1] == "partner" && g[2][2] == "friend";
    }
    assert MatchesAny(s, g[3]) <==> Contains(s, "tired") || Contains(s, "exhausted") || Contains(s, "sleep") by {
      assert g[3][0] == "tired" && g[3][1] == "exhausted" && g[3][2] == "sleep";
    }
    assert MatchesAny(s, g[4]) <==> Contains(s, "pain") || Contains(s, "headache") || Contains(s, "period pain") by {
      assert g[4][0] == "pain" && g[4][1] == "headache" && g[4][2] == "period pain";
    }
    assert MatchesAny(s, g[5]) <==> Contains(s, "thank") by {
      assert g[5][0] == "thank";
    }
    assert MatchesAny(s, g[6]) <==> Contains(s, "hello") || Contains(s, "hi") || Contains(s, "hey") by {
      assert g[6][0] == "hello" && g[6][1] == "hi" && g[6][2] == "hey";
    }
  }

  /** The if-chain picks the reply of the first keyword group that matches,
      and the fallback when none does. */
  lemma GetMockResponseFirstMatch(userInput: string)
    ensures GetMockResponse(userInput) == ReplyTexts[FirstMatch(ReplyKeywordGroups, ToLower(userInput))]
  {
    KeywordGroupsAreTheTests(ToLower(userInput));
  }

  /** The `"period pain"` test can never decide the pain branch: every input
      containing it already contains `"pain"`. */
  lemma PeriodPainRedundant(s: string)
    ensures Contains(s, "period pain") ==> Contains(s, "pain")
  {
    if Contains(s, "period pain") {
      assert OccursAt("period pain", "pain", 7);
      ContainsIffOccurs("period pain", "pain");
      ContainsTransitive(s, "period pain", "pain");
    }
  }

  /** The greeting group is decided by `"hi"` wherever it occurs, inside
      words such as "this" or "nothing" too, once no earlier group matched. */
  lemma GreetingOnAnyHi(userInput: string)
    requires Contains(ToLower(userInput), "hi")
    requires forall j :: 0 <= j < 6 ==> !MatchesAny(ToLower(userInput), ReplyKeywordGroups[j])
    ensures GetMockResponse(userInput) == GreetingReply
  {
    GetMockResponseFirstMatch(userInput);
    assert MatchesAny(ToLower(userInput), ReplyKeywordGroups[6]) by {
      assert ReplyKeywordGroups[6][1] == "hi";
    }
  }

  const WelcomeClosing :=
      " I'm GoddessGPT, your supportive companion. How "
      + "can I assist you with your emotional, mental, "
      + "social, or physical well-being today?"

  /** The welcome text; `userName` is the value `${user.name}` renders to. */
  function WelcomeText(userName: string): (t: string)
    ensures StartsWith(t, "Welcome, " + userName + "!")
  {
    var greeting := "Welcome, " + userName + "!";
    var t := greeting + WelcomeClosing;
    assert t[..|greeting|] == greeting;
    t
  }

  class CompanionChat {
    var messages: seq<ChatMessage>
    var input: string
    var isLoading: bool
    /** The inputs whose reply timers are still running, oldest first. */
    var pending: seq<string>

    constructor ()
      ensures messages == [] && input == "" && !isLoading && pending == []
    {
      messages := [];
      input := "";
      isLoading := false;
      pending := [];
    }

    /** The input's `onChange`. */
    method SetInput(value: string)
      modifies this`input
      ensures input == value
    {
      input := value;
    }

    /** The mount / `user.name` effect: a welcome message, but only into an
        empty transcript. */
    method Welcome(id: string, userName: string)
      modifies this`messages
      ensures old(messages) == [] ==> messages == [ChatMessage(id, Assistant, WelcomeText(userName))]
      ensures old(messages) != [] ==> messages == old(messages)
    {
      if |messages| == 0 {
        messages := [ChatMessage(id, Assistant, WelcomeText(userName))];
      }
    }

    /** The synchronous part of `handleSendMessage`: whitespace-only input
        changes nothing; otherwise the untrimmed input is appended as the
        user's message, the input is cleared, loading starts and a reply to
        that input is scheduled. */
    method HandleSendMessage(id: string)
      modifies this`messages, this`input, this`isLoading, this`pending
      ensures Trim(old(input)) == "" ==>
                messages == old(messages) && input == old(input)
                && isLoading == old(isLoading) && pending == old(pending)
      ensures Trim(old(input)) != "" ==>
                && messages == old(messages) + [ChatMessage(id, User, old(input))]
                && input == "" && isLoading
                && pending == old(pending) + [old(input)]
    {
      if Trim(input) == "" {
        return;
      }
      messages := messages + [ChatMessage(id, User, input)];
      pending := pending + [input];
      input := "";
      isLoading := true;
    }

    /** The delayed part: the oldest pending reply is appended with the
        canned response to the input captured at send time, and the
        `finally` clears loading. */
    method ResolveReply(id: string)
      requires pending != []
      modifies this`messages, this`isLoading, this`pending
      ensures messages == old(messages) + [ChatMessage(id, Assistant, GetMockResponse(old(pending)[0]))]
      ensures pending == old(pending)[1..]
      ensures !isLoading
    {
      messages := messages + [ChatMessage(id, Assistant, GetMockResponse(pending[0]))];
      pending := pending[1..];
      isLoading := false;
    }
  }
}

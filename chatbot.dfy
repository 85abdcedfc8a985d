/** The Chatbot tab: a canned-reply classifier and the append-only message
    list it feeds. */
module Chatbot {
  import opened Wrappers
  import opened Text

  const SoilReply := "Soil type affects which plants will thrive. I recommend loamy soil for most gardens."
  const WaterReply := "Watering deeply but less often encourages roots to grow stronger."
  const DiseaseReply := "Look for yellowing leaves or spots. I can help identify common plant diseases."
  const PlantReply := "I can help identify plants or suggest care tips. What plant are you interested in?"

  /** The replies used when no keyword matches, one picked at random. */
  const DefaultReplies: seq<string> := [
    "I'm here to help your garden grow! Ask me anything.",
    "Did you know tomatoes were once considered poisonous?",
    "Remember to water plants early in the morning or late evening.",
    "Companion planting can protect your garden naturally!",
    "Leaf color changes might indicate nutrient deficiencies."
  ]

  /** The bot's opening line, the only message the list starts with. */
  const GreetingText := "Hi! How can I help your garden grow today?"

  // ---------------------------------------------------------------------
  // The reply rule

  /** One keyword rule: it fires when any of its keywords occurs. */
  datatype Rule = Rule(keywords: seq<string>, reply: string)

  /** The keyword rules in the order they are tried. */
  const Rules: seq<Rule> := [
    Rule(["soil"], SoilReply),
    Rule(["water"], WaterReply),
    Rule(["disease", "sick"], DiseaseReply),
    Rule(["plant"], PlantReply)
  ]

  /** Some keyword of `keywords` occurs in `text`. */
  predicate AnyOccurs(keywords: seq<string>, text: string) {
    keywords != [] && (Contains(text, keywords[0]) || AnyOccurs(keywords[1..], text))
  }

  predicate Fires(rule: Rule, text: string) {
    AnyOccurs(rule.keywords, text)
  }

  /** The reply of the first rule that fires on `text`, if any. */
  function FirstMatch(rules: seq<Rule>, text: string): (r: Option<string>)
    ensures r.None? <==> forall i :: 0 <= i < |rules| ==> !Fires(rules[i], text)
    ensures r.Some? ==> exists i :: FirstFiring(rules, text, i) && r.value == rules[i].reply
  {
    if rules == [] then None
    else if Fires(rules[0], text) then
      assert FirstFiring(rules, text, 0);
      Some(rules[0].reply)
    else
      var r := FirstMatch(rules[1..], text);
      assert forall i :: 1 <= i < |rules| ==> rules[i] == rules[1..][i - 1];
      assert r.Some? ==> exists i :: FirstFiring(rules, text, i) && r.value == rules[i].reply by {
        if r.Some? {
          var j :| FirstFiring(rules[1..], text, j) && r.value == rules[1..][j].reply;
          assert FirstFiring(rules, text, j + 1);
        }
      }
      r
  }

  /** Rule `i` fires on `text` and no rule before it does. */
  predicate FirstFiring(rules: seq<Rule>, text: string, i: int) {
    0 <= i < |rules| && Fires(rules[i], text) && forall j :: 0 <= j < i ==> !Fires(rules[j], text)
  }

  /** The reply rule read off the rule table: lower-case the text, take the
      first rule that fires, otherwise the picked default. */
  function ReplyByRules(userText: string, pick: nat): string
    requires pick < |DefaultReplies|
  {
    match FirstMatch(Rules, ToLower(userText))
    case Some(reply) => reply
    case None => DefaultReplies[pick]
  }

  /** The bot's answer to `userText`. `pick` stands for the random index
      `Math.floor(Math.random() * 5)`. */
  function GetBotReply(userText: string, pick: nat): (r: string)
    requires pick < |DefaultReplies|
    ensures r == ReplyByRules(userText, pick)
  {
    var text := ToLower(userText);
    RulesInOrder(text);
    if Contains(text, "soil") then SoilReply
    else if Contains(text, "water") then WaterReply
    else if Contains(text, "disease") || Contains(text, "sick") then DiseaseReply
    else if Contains(text, "plant") then PlantReply
    else DefaultReplies[pick]
  }

  /** The rule table, unfolded: which reply the first firing rule gives. */
  lemma RulesInOrder(text: string)
    ensures FirstMatch(Rules, text) ==
      if Contains(text, "soil") then Some(SoilReply)
      else if Contains(text, "water") then Some(WaterReply)
      else if Contains(text, "disease") || Contains(text, "sick") then Some(DiseaseReply)
      else if Contains(text, "plant") then Some(PlantReply)
      else None
  {
    var r0, r1, r2, r3 := Rules[0], Rules[1], Rules[2], Rules[3];
    assert r0 == Rule(["soil"], SoilReply) && r1 == Rule(["water"], WaterReply);
    assert r2 == Rule(["disease", "sick"], DiseaseReply) && r3 == Rule(["plant"], PlantReply);
    OneKeyword("soil", text);
    OneKeyword("water", text);
    OneKeyword("sick", text);
    OneKeyword("plant", text);
    assert Fires(r2, text) <==> Contains(text, "disease") || AnyOccurs(["sick"], text) by {
      var ks: seq<string> := ["disease", "sick"];
      assert ks[0] == "disease" && ks[1..] == ["sick"];
    }
    assert FirstMatch([r3], text) == if Contains(text, "plant") then Some(PlantReply) else None by {
      assert [r3][1..] == [];
    }
    assert FirstMatch([r2, r3], text) == if Fires(r2, text) then Some(DiseaseReply) else FirstMatch([r3], text) by {
      assert [r2, r3][1..] == [r3];
    }
    assert FirstMatch([r1, r2, r3], text) == if Contains(text, "water") then Some(WaterReply) else FirstMatch([r2, r3], text) by {
      assert [r1, r2, r3][1..] == [r2, r3];
    }
    assert Rules[1..] == [r1, r2, r3];
  }

  lemma OneKeyword(w: string, text: string)
    ensures AnyOccurs([w], text) <==> Contains(text, w)
  {
    var ks: seq<string> := [w];
    assert ks[0] == w && ks[1..] == [];
  }

  /** No message of a conversation could mistake one reply for another. */
  lemma RepliesDistinct()
    ensures SoilReply != WaterReply && SoilReply != DiseaseReply && SoilReply != PlantReply
    ensures WaterReply != DiseaseReply && WaterReply != PlantReply && DiseaseReply != PlantReply
    ensures SoilReply !in DefaultReplies && WaterReply !in DefaultReplies
    ensures DiseaseReply !in DefaultReplies && PlantReply !in DefaultReplies
  {
  }

  /** Each canned reply is given exactly when its rule is the first to fire
      on the lower-cased text; a default is given exactly when no keyword
      occurs. */
  lemma ReplyPriority(userText: string, pick: nat)
    requires pick < |DefaultReplies|
    ensures var text, r := ToLower(userText), GetBotReply(userText, pick);
      && (r == SoilReply <==> Contains(text, "soil"))
      && (r == WaterReply <==> !Contains(text, "soil") && Contains(text, "water"))
      && (r == DiseaseReply <==> !Contains(text, "soil") && !Contains(text, "water")
                                 && (Contains(text, "disease") || Contains(text, "sick")))
      && (r == PlantReply <==> !Contains(text, "soil") && !Contains(text, "water")
                               && !Contains(text, "disease") && !Contains(text, "sick")
                               && Contains(text, "plant"))
      && (r in DefaultReplies <==> !Contains(text, "soil") && !Contains(text, "water")
                                   && !Contains(text, "disease") && !Contains(text, "sick")
                                   && !Contains(text, "plant"))
  {
    var text, r := ToLower(userText), GetBotReply(userText, pick);
    var soil, water := Contains(text, "soil"), Contains(text, "water");
    var disease, sick, plant := Contains(text, "disease"), Contains(text, "sick"), Contains(text, "plant");
    assert r == if soil then SoilReply else if water then WaterReply
                else if disease || sick then DiseaseReply else if plant then PlantReply
                else DefaultReplies[pick];
    RepliesDistinct();
  }

  /** Without a keyword the answer is the picked default; with one the
      random pick plays no part. */
  lemma ReplyIgnoresPickOnKeyword(userText: string, p: nat, q: nat)
    requires p < |DefaultReplies| && q < |DefaultReplies|
    requires GetBotReply(userText, p) !in DefaultReplies
    ensures GetBotReply(userText, p) == GetBotReply(userText, q)
  {
  }

  /** Matching ignores case: two texts with the same lower case get the
      same reply. */
  lemma ReplyIgnoresCase(a: string, b: string, pick: nat)
    requires pick < |DefaultReplies|
    requires ToLower(a) == ToLower(b)
    ensures GetBotReply(a, pick) == GetBotReply(b, pick)
  {
  }

  /** A mention of "soil" in any casing, anywhere in the message, wins over
      every other keyword, "water" included. */
  lemma {:induction false} SoilMentionWins(before: string, word: string, after: string, pick: nat)
    requires pick < |DefaultReplies|
    requires ToLower(word) == "soil"
    ensures GetBotReply(before + word + after, pick) == SoilReply
  {
    ToLowerAppend(before + word, after);
    ToLowerAppend(before, word);
    assert Contains("soil", "soil") by { assert OccursAt("soil", "soil", 0); }
    ContainsInContext(ToLower(before), "soil", ToLower(after), "soil");
  }

  /** "I have soil problems" is answered with the soil tip. */
  lemma SoilQuestionExample(pick: nat)
    requires pick < |DefaultReplies|
    ensures GetBotReply("I have soil problems", pick) == SoilReply
  {
    assert ToLower("soil") == "soil";
    assert "I have " + "soil" + " problems" == "I have soil problems";
    SoilMentionWins("I have ", "soil", " problems", pick);
  }

  // ---------------------------------------------------------------------
  // The message list

  datatype Sender = User | Bot

  datatype Message = Message(id: int, sender: Sender, text: string)

  const Greeting := Message(0, Bot, GreetingText)

  /** How many messages in `ms` come from `who`. */
  function CountFrom(ms: seq<Message>, who: Sender): nat {
    if ms == [] then 0
    else CountFrom(ms[..|ms| - 1], who) + (if ms[|ms| - 1].sender == who then 1 else 0)
  }

  /** The chat panel's state: the messages shown, the text field, and the
      inputs whose one-second reply timers are still pending, oldest first
      (equal delays fire in the order they were set). */
  class ChatPanel {
    var messages: seq<Message>
    var input: string
    var scheduled: seq<string>

    /** The list starts with the greeting; every user message is trimmed
        and non-blank; each user message has had its reply or still has one
        pending. */
    ghost predicate Valid()
      reads this
    {
      && |messages| >= 1 && messages[0] == Greeting
      && (forall i :: 0 <= i < |messages| && messages[i].sender == User ==> IsTrimmedNonBlank(messages[i].text))
      && CountFrom(messages, User) + 1 == CountFrom(messages, Bot) + |scheduled|
    }

    constructor ()
      ensures Valid()
      ensures messages == [Greeting] && input == "" && scheduled == []
    {
      messages := [Greeting];
      input := "";
      scheduled := [];
    }

    /** The text field's `onChange`. */
    method SetInput(text: string)
      requires Valid()
      modifies this`input
      ensures Valid() && input == text
    {
      input := text;
    }

    /** `sendMessage`: a blank input does nothing; otherwise the trimmed
        input is appended as a user message, the field is cleared and a
        reply for the untrimmed input is scheduled. `id` stands for
        `Date.now()`. */
    method SendMessage(id: int) returns (sent: bool)
      requires Valid()
      modifies this
      ensures Valid()
      ensures sent <==> !IsBlank(old(input))
      ensures sent ==> && messages == old(messages) + [Message(id, User, Trim(old(input)))]
                       && input == ""
                       && scheduled == old(scheduled) + [old(input)]
      ensures !sent ==> messages == old(messages) && input == old(input) && scheduled == old(scheduled)
    {
      var text := Trim(input);
      if text == [] {
        return false;
      }
      CountAppend(messages, Message(id, User, text));
      messages := messages + [Message(id, User, text)];
      scheduled := scheduled + [input];
      input := "";
      sent := true;
    }

    /** The oldest pending reply timer fires: exactly one bot message, the
        reply to the input captured when it was set, is appended. `id`
        stands for `Date.now() + 1` and `pick` for the random index. */
    method DeliverReply(id: int, pick: nat)
      requires Valid()
      requires scheduled != []
      requires pick < |DefaultReplies|
      modifies this`messages, this`scheduled
      ensures Valid()
      ensures messages == old(messages) + [Message(id, Bot, GetBotReply(old(scheduled)[0], pick))]
      ensures scheduled == old(scheduled)[1..]
    {
      var reply := Message(id, Bot, GetBotReply(scheduled[0], pick));
      CountAppend(messages, reply);
      messages := messages + [reply];
      scheduled := scheduled[1..];
    }
  }

  /** Appending a message adds one to its sender's count only. */
  lemma CountAppend(ms: seq<Message>, m: Message)
    ensures forall who :: CountFrom(ms + [m], who) == CountFrom(ms, who) + (if m.sender == who then 1 else 0)
  {
    assert (ms + [m])[..|ms|] == ms;
  }

  /** Every operation on the panel keeps what was already shown: the old
      list is a prefix of the new one. */
  method ConversationOnlyGrows(c: ChatPanel, text: string, id1: int, id2: int, pick: nat)
    requires c.Valid() && pick < |DefaultReplies|
    modifies c
    ensures c.Valid()
    ensures old(c.messages) <= c.messages
    ensures c.messages[0] == Greeting
  {
    c.SetInput(text);
    var sent := c.SendMessage(id1);
    if c.scheduled != [] {
      c.DeliverReply(id2, pick);
    }
  }

  /** A message mentioning soil in any casing, e.g. "I have soil
      problems", sent while no reply is pending: the trimmed message appears
      at once, the soil tip after the delay. */
  method SoilConversation(c: ChatPanel, question: string, pick: nat)
    requires c.Valid() && c.scheduled == []
    requires pick < |DefaultReplies| && Contains(ToLower(question), "soil")
    modifies c
    ensures c.Valid() && c.input == "" && c.scheduled == []
    ensures c.messages == old(c.messages) + [Message(1, User, Trim(question)), Message(2, Bot, SoilReply)]
  {
    c.SetInput(question);
    MentionNotBlank(question, "soil");
    var sent := c.SendMessage(1);
    c.DeliverReply(2, pick);
  }

  /** Text whose lower case contains a keyword is not blank: the keyword
      starts with a letter. */
  lemma MentionNotBlank(text: string, keyword: string)
    requires keyword != [] && 'a' <= keyword[0] <= 'z'
    requires Contains(ToLower(text), keyword)
    ensures !IsBlank(text)
  {
    var k :| OccursAt(ToLower(text), keyword, k);
    assert ToLower(text)[k] == keyword[0];
  }

  /** A whitespace-only message is never sent and stays in the field. */
  method BlankMessageIgnored(c: ChatPanel, blank: string, id: int)
    requires c.Valid() && IsBlank(blank)
    modifies c
    ensures c.Valid()
    ensures c.messages == old(c.messages) && c.input == blank && c.scheduled == old(c.scheduled)
  {
    c.SetInput(blank);
    var sent := c.SendMessage(id);
    assert !sent;
  }
}

/// The older offline chat screen: a canned reply chosen by keyword, appended
/// after the user's message at the end of the log.
module SimpleChatbot {
  import opened Wrappers
  import opened Text

  const FROM_USER: string := "user"
  const FROM_BOT: string := "bot"

  const GREETING: string := "Hey! Ask me anything about renting items \U{1F91D}"
  const CAMERA_REPLY: string := "We have DSLRs, GoPros, and tripods!"
  const PRICE_REPLY: string := "Prices vary \U{2014} check YourListings for current rates."
  const RENT_REPLY: string := "You can rent items from Add Listings or search available ones!"
  const HELLO_REPLY: string := "Hello there! How can I assist your rental needs today?"
  const FALLBACK_REPLY: string := "I didn't know that, but I searched it on Google for you!"

  /** One line of the log: who sent it ("user" or "bot") and its text. */
  datatype ChatLine = ChatLine(from: string, text: string)

  /** The reply to an input, and the web search the screen opens (with the
      raw input as its query) when no keyword matched. */
  datatype Decision = Decision(reply: string, searchQuery: Option<string>)

  /** The reply chain of `handleSend` on the lowercased input. */
  function Decide(input: string): (d: Decision)
    ensures d.searchQuery.Some? <==> d.reply == FALLBACK_REPLY
    ensures d.searchQuery.Some? ==> d.searchQuery.value == input
  {
    var lower := Lower(input);
    if Contains(lower, "camera") then Decision(CAMERA_REPLY, None)
    else if Contains(lower, "price") then Decision(PRICE_REPLY, None)
    else if Contains(lower, "rent") then Decision(RENT_REPLY, None)
    else if Contains(lower, "hello") || Contains(lower, "hi") then Decision(HELLO_REPLY, None)
    else Decision(FALLBACK_REPLY, Some(input))
  }

  /** A keyword rule: any of its keywords selects its reply. */
  datatype Rule = Rule(keywords: seq<string>, reply: string)

  /** The rules in priority order. */
  const RULES: seq<Rule> := [
    Rule(["camera"], CAMERA_REPLY),
    Rule(["price"], PRICE_REPLY),
    Rule(["rent"], RENT_REPLY),
    Rule(["hello", "hi"], HELLO_REPLY)
  ]

  /** Some keyword occurs in the text. */
  predicate AnyKeyword(keywords: seq<string>, text: string) {
    exists k :: k in keywords && Contains(text, k)
  }

  /** Reference definition: the reply of the first rule with a keyword in
      the text, or the fallback when none has. */
  function FirstMatch(rules: seq<Rule>, text: string): (reply: string)
    ensures reply == FALLBACK_REPLY || exists r :: r in rules && r.reply == reply
  {
    if rules == [] then FALLBACK_REPLY
    else if AnyKeyword(rules[0].keywords, text) then rules[0].reply
    else FirstMatch(rules[1..], text)
  }

  /** The reply chain is the priority-ordered first match over the
      lowercased input. */
  lemma {:induction false} DecideFollowsRules(input: string)
    ensures Decide(input).reply == FirstMatch(RULES, Lower(input))
  {
    var lower := Lower(input);
    assert AnyKeyword(["camera"], lower) <==> Contains(lower, "camera") by {
      if Contains(lower, "camera") { assert "camera" in ["camera"]; }
    }
    assert AnyKeyword(["price"], lower) <==> Contains(lower, "price") by {
      if Contains(lower, "price") { assert "price" in ["price"]; }
    }
    assert AnyKeyword(["rent"], lower) <==> Contains(lower, "rent") by {
      if Contains(lower, "rent") { assert "rent" in ["rent"]; }
    }
    assert AnyKeyword(["hello", "hi"], lower) <==> Contains(lower, "hello") || Contains(lower, "hi") by {
      if Contains(lower, "hello") { assert "hello" in ["hello", "hi"]; }
      if Contains(lower, "hi") { assert "hi" in ["hello", "hi"]; }
    }
    var r1 := RULES[1..];
    var r2 := r1[1..];
    var r3 := r2[1..];
    assert r1 == [Rule(["price"], PRICE_REPLY), Rule(["rent"], RENT_REPLY), Rule(["hello", "hi"], HELLO_REPLY)];
    assert r2 == [Rule(["rent"], RENT_REPLY), Rule(["hello", "hi"], HELLO_REPLY)];
    assert r3 == [Rule(["hello", "hi"], HELLO_REPLY)];
    assert r3[1..] == [];
    assert FirstMatch([], lower) == FALLBACK_REPLY;
    assert FirstMatch(r3, lower) == if AnyKeyword(["hello", "hi"], lower) then HELLO_REPLY else FALLBACK_REPLY;
    assert FirstMatch(r2, lower) == if AnyKeyword(["rent"], lower) then RENT_REPLY else FirstMatch(r3, lower);
    assert FirstMatch(r1, lower) == if AnyKeyword(["price"], lower) then PRICE_REPLY else FirstMatch(r2, lower);
    assert FirstMatch(RULES, lower) == if AnyKeyword(["camera"], lower) then CAMERA_REPLY else FirstMatch(r1, lower);
  }

  /** Matching ignores letter case: the input and its lowercase form get the
      same reply. */
  lemma DecideIgnoresCase(input: string)
    ensures Decide(Lower(input)).reply == Decide(input).reply
  {
    LowerIdempotent(input);
  }

  /** The log's shape: the greeting, then user/bot pairs. */
  predicate WellFormedLog(messages: seq<ChatLine>) {
    && |messages| % 2 == 1
    && messages[0] == ChatLine(FROM_BOT, GREETING)
    && forall i :: 0 < i < |messages| ==> messages[i].from == (if i % 2 == 1 then FROM_USER else FROM_BOT)
  }

  /** The screen's state slots. */
  class SimpleChatScreen {
    var input: string
    var messages: seq<ChatLine>

    constructor ()
      ensures input == "" && messages == [ChatLine(FROM_BOT, GREETING)]
      ensures WellFormedLog(messages)
    {
      input := "";
      messages := [ChatLine(FROM_BOT, GREETING)];
    }

    /** The text field's change handler. */
    method ChangeText(text: string)
      modifies this
      ensures input == text && messages == old(messages)
    {
      input := text;
    }

    /** `handleSend`: a blank input changes nothing; otherwise the user's
        line and the reply are appended and the input is cleared. */
    method HandleSend() returns (searchQuery: Option<string>)
      modifies this
      ensures Trim(old(input)) == "" ==> input == old(input) && messages == old(messages) && searchQuery.None?
      ensures Trim(old(input)) != "" ==>
                && messages == old(messages) + [ChatLine(FROM_USER, old(input)),
                                                ChatLine(FROM_BOT, Decide(old(input)).reply)]
                && input == ""
                && searchQuery == Decide(old(input)).searchQuery
      ensures WellFormedLog(old(messages)) ==> WellFormedLog(messages)
    {
      searchQuery := None;
      if Trim(input) == "" {
        return;
      }
      var userMessage := ChatLine(FROM_USER, input);
      var decision := Decide(input);
      searchQuery := decision.searchQuery;
      messages := messages + [userMessage, ChatLine(FROM_BOT, decision.reply)];
      input := "";
    }
  }
}

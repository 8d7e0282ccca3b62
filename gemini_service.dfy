/// The chat service: per-user message history kept in the device's key-value
/// storage, the single flattened prompt sent to the text-generation endpoint,
/// and the texts handed back to the caller whatever the endpoint does.
module GeminiService {
  import opened Wrappers
  import opened Text
  import opened Seqs

  const HISTORY_KEY_PREFIX: string := "chat_history_"

  /** The persona preamble that opens every conversation prompt. */
  const AI_PERSONA: string :=
    "As an AI assistant for a rental company:\n"
    + "- Be simple, concise, and friendly in your responses\n"
    + "- Specialize in helping customers decide what to rent for events (beach parties, house warmings, birthdays, etc.)\n"
    + "- Focus on practical recommendations based on event type, guest count, and location\n"
    + "- Suggest specific rental items that would enhance their event\n"
    + "- Ask clarifying questions if needed to provide better recommendations\n"
    + "- Always be positive and enthusiastic about helping plan their event"

  /** The fixed parts of the introduction request and of its fallback greeting. */
  const WELCOME_REQUEST: string :=
    "\n\nIntroduce yourself as RentBuddy, a helpful assistant for a rental company that specializes in event rentals "
  const WELCOME_CLOSE: string := ". Keep it brief and ask what kind of event the customer is planning."
  const FALLBACK_TAIL: string := " I'm RentBuddy, your event rental assistant. What kind of event are you planning?"

  const NO_RESPONSE: string := "No response"
  const FAILURE_TEXT: string := "Something went wrong. Try again."

  /** The author of a message: `_id` and display name. */
  datatype Author = Author(id: string, name: string)

  const USER: Author := Author("usr1", "Customer")
  const AI: Author := Author("ai", "RentBuddy")

  /** A chat message. An `id` of "" stands for a missing `_id`; the creation
      time is not part of the model. */
  datatype Message = Message(id: string, author: Author, text: string)

  // ---------------------------------------------------------------------------
  // History store
  // ---------------------------------------------------------------------------

  /** What a storage key holds once read back: a parsed message list, or text
      that does not parse as one. */
  datatype Stored = Saved(log: seq<Message>) | Unparsable

  /** The device's key-value storage. */
  class AsyncStorage {
    var items: map<string, Stored>

    constructor (items: map<string, Stored>)
      ensures this.items == items
    {
      this.items := items;
    }
  }

  /** The storage key of a user's history; an empty user id uses the default namespace. */
  function HistoryKey(userId: string): (key: string)
    ensures HISTORY_KEY_PREFIX < key
  {
    HISTORY_KEY_PREFIX + (if userId == "" then "default" else userId)
  }

  /** Two user ids share a history key exactly when they are equal or are the
      empty id and the literal id "default". */
  lemma HistoryKeysCollide(a: string, b: string)
    ensures HistoryKey(a) == HistoryKey(b)
            <==> a == b || (a == "" && b == "default") || (a == "default" && b == "")
  {
    var n := |HISTORY_KEY_PREFIX|;
    assert HistoryKey(a)[n..] == if a == "" then "default" else a;
    assert HistoryKey(b)[n..] == if b == "" then "default" else b;
  }

  /** The storage after a successful save of `messages` for `userId`. */
  function ItemsAfterSave(items: map<string, Stored>, messages: seq<Message>, userId: string)
    : map<string, Stored>
  {
    items[HistoryKey(userId) := Saved(messages)]
  }

  /** The history a successful read gives for `userId`: the saved list, or the
      empty list when the key is missing or does not parse. */
  function StoredLog(items: map<string, Stored>, userId: string): seq<Message> {
    var key := HistoryKey(userId);
    if key in items && items[key].Saved? then items[key].log else []
  }

  /** The storage after a successful clear for `userId`. */
  function ItemsAfterClear(items: map<string, Stored>, userId: string): map<string, Stored> {
    items - {HistoryKey(userId)}
  }

  /** `saveHistory`: writes the list under the user's key; a storage error is
      swallowed and leaves the storage as it was. */
  method SaveHistory(storage: AsyncStorage, messages: seq<Message>, userId: string, ioOk: bool)
    modifies storage
    ensures storage.items == if ioOk then ItemsAfterSave(old(storage.items), messages, userId)
                             else old(storage.items)
  {
    var key := HistoryKey(userId);
    if ioOk {
      storage.items := storage.items[key := Saved(messages)];
    }
  }

  /** `loadHistory`: the saved list, or [] when nothing is saved, the value
      does not parse or the read fails. */
  method LoadHistory(storage: AsyncStorage, userId: string, ioOk: bool) returns (history: seq<Message>)
    ensures history == if ioOk then StoredLog(storage.items, userId) else []
  {
    var key := HistoryKey(userId);
    if !ioOk || key !in storage.items {
      return [];
    }
    match storage.items[key]
    case Saved(log) => history := log;
    case Unparsable => history := [];
  }

  /** `clearHistory`: removes the user's key and reports success; a storage
      error is reported as false. */
  method ClearHistory(storage: AsyncStorage, userId: string, ioOk: bool) returns (ok: bool)
    modifies storage
    ensures ok == ioOk
    ensures storage.items == if ioOk then ItemsAfterClear(old(storage.items), userId)
                             else old(storage.items)
  {
    var key := HistoryKey(userId);
    if ioOk {
      storage.items := storage.items - {key};
      ok := true;
    } else {
      ok := false;
    }
  }

  /** Saving then loading for the same user gives back the saved list, in order. */
  lemma LoadAfterSave(items: map<string, Stored>, messages: seq<Message>, userId: string)
    ensures StoredLog(ItemsAfterSave(items, messages, userId), userId) == messages
  {
  }

  /** A save for one user leaves every other user's history as it was, unless
      the two ids share the default key. */
  lemma SaveLeavesOtherUsers(items: map<string, Stored>, messages: seq<Message>, userId: string, other: string)
    requires other != userId
    requires !(userId == "" && other == "default") && !(userId == "default" && other == "")
    ensures StoredLog(ItemsAfterSave(items, messages, userId), other) == StoredLog(items, other)
  {
    HistoryKeysCollide(userId, other);
  }

  /** After a clear the user's history reads as empty, and clearing again
      changes nothing. */
  lemma ClearIsIdempotent(items: map<string, Stored>, userId: string)
    ensures StoredLog(ItemsAfterClear(items, userId), userId) == []
    ensures ItemsAfterClear(ItemsAfterClear(items, userId), userId) == ItemsAfterClear(items, userId)
  {
  }

  // ---------------------------------------------------------------------------
  // Prompt construction
  // ---------------------------------------------------------------------------

  /** The conversation line of one history message. */
  function Line(m: Message): string {
    (if m.author.id == USER.id then "User" else "Assistant") + ": " + m.text
  }

  /** The lines for history messages given oldest first: one line per message
      whose text is not blank after trimming, in the same order. */
  function HistoryLines(ms: seq<Message>): (lines: seq<string>)
    ensures |lines| <= |ms|
    decreases |ms|
  {
    if ms == [] then []
    else
      var m := ms[|ms| - 1];
      HistoryLines(ms[..|ms| - 1]) + (if Trim(m.text) != "" then [Line(m)] else [])
  }

  /** One more (newer) message adds at most its own line at the end. */
  lemma HistoryLinesSnoc(ms: seq<Message>, m: Message)
    ensures HistoryLines(ms + [m]) == HistoryLines(ms) + (if Trim(m.text) != "" then [Line(m)] else [])
  {
    assert (ms + [m])[..|ms|] == ms;
  }

  /** The test before the final push: element 0 of the reversed history is a
      user message whose text is exactly the utterance. */
  predicate AlreadyIncluded(conversationMessages: seq<Message>, prompt: string) {
    |conversationMessages| > 0 && conversationMessages[0].author.id == USER.id
    && conversationMessages[0].text == prompt
  }

  /** The parts of the prompt for `prompt` and a newest-first `chatHistory`,
      opened by the given persona preamble (`AI_PERSONA` in the service). */
  function PromptParts(persona: string, prompt: string, chatHistory: seq<Message>): seq<string> {
    var conversationMessages := Reverse(chatHistory);
    ["System: " + persona] + HistoryLines(conversationMessages)
    + (if AlreadyIncluded(conversationMessages, prompt) then [] else ["User: " + prompt])
  }

  /** The parts of the prompt, given the history lines already rendered. */
  lemma PromptPartsFromLines(persona: string, prompt: string, chatHistory: seq<Message>, lines: seq<string>)
    requires lines == HistoryLines(Reverse(chatHistory))
    ensures PromptParts(persona, prompt, chatHistory)
            == ["System: " + persona] + lines
               + (if AlreadyIncluded(Reverse(chatHistory), prompt) then [] else ["User: " + prompt])
  {
  }

  /** The prompt built in `completion`: the persona, then the history oldest
      first, then the utterance unless already included, joined by blank lines.
      The persona preamble is a parameter; `Completion` passes `AI_PERSONA`. */
  method BuildPrompt(persona: string, prompt: string, chatHistory: seq<Message>) returns (fullPrompt: string)
    ensures fullPrompt == Join(PromptParts(persona, prompt, chatHistory), "\n\n")
  {
    var conversationMessages := Reverse(chatHistory);
    var lines := [];
    var i := 0;
    while i < |conversationMessages|
      invariant 0 <= i <= |conversationMessages|
      invariant lines == HistoryLines(conversationMessages[..i])
    {
      var message := conversationMessages[i];
      if Trim(message.text) != "" {
        var role := if message.author.id == USER.id then "User" else "Assistant";
        lines := lines + [role + ": " + message.text];
      }
      assert conversationMessages[..i + 1] == conversationMessages[..i] + [message];
      HistoryLinesSnoc(conversationMessages[..i], message);
      i := i + 1;
    }
    assert conversationMessages[..i] == conversationMessages;
    PromptPartsFromLines(persona, prompt, chatHistory, lines);
    var conversation := ["System: " + persona] + lines;
    if |conversationMessages| == 0 || conversationMessages[0].author.id != USER.id
       || conversationMessages[0].text != prompt
    {
      conversation := conversation + ["User: " + prompt];
    }
    assert conversation == PromptParts(persona, prompt, chatHistory);
    fullPrompt := Join(conversation, "\n\n");
  }

  /** The prompt opens with the persona. */
  lemma PromptOpensWithPersona(persona: string, prompt: string, chatHistory: seq<Message>)
    ensures "System: " + persona <= Join(PromptParts(persona, prompt, chatHistory), "\n\n")
  {
  }

  /** History is rendered oldest first: a newer message, prepended to the
      newest-first history, contributes its line after every older line. */
  lemma {:induction false} NewerMessageRendersLast(newer: Message, older: seq<Message>)
    ensures HistoryLines(Reverse([newer] + older))
            == HistoryLines(Reverse(older)) + (if Trim(newer.text) != "" then [Line(newer)] else [])
  {
    assert ([newer] + older)[1..] == older;
    var r := Reverse([newer] + older);
    assert r == Reverse(older) + [newer];
    assert r[..|r| - 1] == Reverse(older);
  }

  /** When no message is blank, every message contributes exactly its line, in order. */
  lemma {:induction false} HistoryLinesOfNonBlank(ms: seq<Message>)
    requires forall i :: 0 <= i < |ms| ==> Trim(ms[i].text) != ""
    ensures |HistoryLines(ms)| == |ms|
    ensures forall i :: 0 <= i < |ms| ==> HistoryLines(ms)[i] == Line(ms[i])
    decreases |ms|
  {
    if ms != [] {
      var init := ms[..|ms| - 1];
      var last := ms[|ms| - 1];
      assert ms == init + [last];
      HistoryLinesOfNonBlank(init);
      HistoryLinesSnoc(init, last);
      assert HistoryLines(ms) == HistoryLines(init) + [Line(last)];
    }
  }

  /** The utterance is appended unless the LAST element of the newest-first
      history (its oldest message) is a user message with exactly that text. */
  lemma UtteranceAppendedUnlessOldestRepeatsIt(persona: string, prompt: string, chatHistory: seq<Message>)
    ensures PromptParts(persona, prompt, chatHistory)
            == ["System: " + persona] + HistoryLines(Reverse(chatHistory))
               + (if |chatHistory| > 0 && chatHistory[|chatHistory| - 1].author.id == USER.id
                     && chatHistory[|chatHistory| - 1].text == prompt
                  then [] else ["User: " + prompt])
  {
    if |chatHistory| > 0 {
      assert Reverse(chatHistory)[0] == chatHistory[|chatHistory| - 1];
    }
  }

  /** A two-turn history renders as the older message's line, then the newer one's. */
  lemma TwoTurnLines(older: Message, newer: Message)
    requires Trim(older.text) != "" && Trim(newer.text) != ""
    ensures HistoryLines(Reverse([newer, older])) == [Line(older), Line(newer)]
  {
    assert Reverse([newer, older]) == [older, newer];
    HistoryLinesSnoc([], older);
    assert [] + [older] == [older];
    HistoryLinesSnoc([older], newer);
    assert [older] + [newer] == [older, newer];
  }

  /** A two-turn history (an older user message, then an assistant reply)
      and a new utterance: after the persona come the user line, the
      assistant line, then the utterance once. */
  lemma TwoTurnPrompt(persona: string, prompt: string, older: Message, newer: Message)
    requires older.author == USER && newer.author == AI
    requires Trim(older.text) != "" && Trim(newer.text) != "" && older.text != prompt
    ensures PromptParts(persona, prompt, [newer, older])[1..]
            == ["User: " + older.text, "Assistant: " + newer.text, "User: " + prompt]
  {
    TwoTurnLines(older, newer);
    assert Line(older) == "User: " + older.text by {
      assert "User" + ": " == "User: ";
    }
    assert Line(newer) == "Assistant: " + newer.text by {
      assert "Assistant" + ": " == "Assistant: ";
    }
    PromptPartsFromLines(persona, prompt, [newer, older], [Line(older), Line(newer)]);
  }

  /** The history the chat screen passes on a send: the empty assistant
      placeholder and the user's message, in front of the previous log. */
  lemma {:induction false} SendHistoryLines(prompt: string, aiId: string, userMessageId: string, messages: seq<Message>)
    requires Trim(prompt) != ""
    ensures HistoryLines(Reverse([Message(aiId, AI, ""), Message(userMessageId, USER, prompt)] + messages))
            == HistoryLines(Reverse(messages)) + ["User: " + prompt]
  {
    var placeholder := Message(aiId, AI, "");
    var utterance := Message(userMessageId, USER, prompt);
    var older := Reverse(messages);
    ReverseConcat([placeholder, utterance], messages);
    assert Reverse([placeholder, utterance]) == [utterance, placeholder];
    assert older + [utterance, placeholder] == (older + [utterance]) + [placeholder];
    HistoryLinesSnoc(older, utterance);
    HistoryLinesSnoc(older + [utterance], placeholder);
    assert Trim(placeholder.text) == "" by {
      assert IsBlank(placeholder.text);
    }
    assert "User" + ": " == "User: ";
  }

  /** The prompt of a send as written: the utterance is rendered from the
      history and appended once more unless the previous log is empty or its
      oldest message is a user message with the same text. */
  lemma SendPromptRepeatsUtterance(persona: string, prompt: string, aiId: string, userMessageId: string,
                                   messages: seq<Message>)
    requires Trim(prompt) != ""
    ensures PromptParts(persona, prompt, [Message(aiId, AI, ""), Message(userMessageId, USER, prompt)] + messages)
            == ["System: " + persona] + HistoryLines(Reverse(messages)) + ["User: " + prompt]
               + (if messages != [] && !(messages[|messages| - 1].author.id == USER.id
                                         && messages[|messages| - 1].text == prompt)
                  then ["User: " + prompt] else [])
  {
    var utterance := Message(userMessageId, USER, prompt);
    var history := [Message(aiId, AI, ""), utterance] + messages;
    var lines := HistoryLines(Reverse(messages)) + ["User: " + prompt];
    SendHistoryLines(prompt, aiId, userMessageId, messages);
    PromptPartsFromLines(persona, prompt, history, lines);
    var oldest := history[|history| - 1];
    assert Reverse(history)[0] == oldest;
    var repeated := messages != [] && !(messages[|messages| - 1].author.id == USER.id
                                        && messages[|messages| - 1].text == prompt);
    if messages == [] {
      assert oldest == utterance;
    } else {
      assert oldest == messages[|messages| - 1];
    }
    assert AlreadyIncluded(Reverse(history), prompt) == !repeated;
    var tail := if repeated then ["User: " + prompt] else [];
    var system := ["System: " + persona];
    AppendAssoc(system, HistoryLines(Reverse(messages)), ["User: " + prompt]);
  }

  /** The parts of the prompt with the evident intent of the "already
      included" test: the utterance is appended unless the newest rendered
      history line already is that utterance. */
  function PromptPartsOnce(persona: string, prompt: string, chatHistory: seq<Message>): seq<string> {
    var lines := HistoryLines(Reverse(chatHistory));
    ["System: " + persona] + lines
    + (if |lines| > 0 && lines[|lines| - 1] == "User: " + prompt then [] else ["User: " + prompt])
  }

  /** Whichever branch the corrected test takes, the last part is the utterance. */
  lemma PromptPartsOnceEndsWithUtterance(persona: string, prompt: string, chatHistory: seq<Message>)
    ensures PromptPartsOnce(persona, prompt, chatHistory)[|PromptPartsOnce(persona, prompt, chatHistory)| - 1]
            == "User: " + prompt
  {
    var lines := HistoryLines(Reverse(chatHistory));
    var head := ["System: " + persona] + lines;
    if |lines| > 0 && lines[|lines| - 1] == "User: " + prompt {
      assert PromptPartsOnce(persona, prompt, chatHistory) == head + [];
      assert head[|head| - 1] == lines[|lines| - 1];
    } else {
      assert PromptPartsOnce(persona, prompt, chatHistory) == head + ["User: " + prompt];
    }
  }

  /** When the rendered history already ends with the utterance, the
      corrected prompt adds nothing after it. */
  lemma PromptPartsOnceOfEndingLines(persona: string, prompt: string, chatHistory: seq<Message>, older: seq<string>)
    requires HistoryLines(Reverse(chatHistory)) == older + ["User: " + prompt]
    ensures PromptPartsOnce(persona, prompt, chatHistory) == ["System: " + persona] + older + ["User: " + prompt]
  {
    var lines := older + ["User: " + prompt];
    assert lines[|lines| - 1] == "User: " + prompt;
    assert PromptPartsOnce(persona, prompt, chatHistory) == ["System: " + persona] + lines + [];
    AppendAssoc(["System: " + persona], older, ["User: " + prompt]);
  }

  /** With the correction a send renders the utterance exactly once, after
      the whole previous log. */
  lemma SendPromptOnce(persona: string, prompt: string, aiId: string, userMessageId: string, messages: seq<Message>)
    requires Trim(prompt) != ""
    ensures PromptPartsOnce(persona, prompt, [Message(aiId, AI, ""), Message(userMessageId, USER, prompt)] + messages)
            == ["System: " + persona] + HistoryLines(Reverse(messages)) + ["User: " + prompt]
  {
    SendHistoryLines(prompt, aiId, userMessageId, messages);
    PromptPartsOnceOfEndingLines(persona, prompt, [Message(aiId, AI, ""), Message(userMessageId, USER, prompt)] + messages,
                                 HistoryLines(Reverse(messages)));
  }

  // ---------------------------------------------------------------------------
  // Completion calls
  // ---------------------------------------------------------------------------

  /** What the text-generation endpoint did: answered (with the text found at
      `candidates[0].content.parts[0].text`, if any) or failed. */
  datatype HttpOutcome = Answered(text: Option<string>) | RequestFailed

  /** The text `completion` settles on: the reply, "No response" when the
      reply field is missing or empty, the apology when the request failed. */
  function ReplyText(outcome: HttpOutcome): (text: string)
    ensures text != ""
    ensures outcome.RequestFailed? ==> text == FAILURE_TEXT
    ensures outcome.Answered? && outcome.text.Some? && outcome.text.value != "" ==> text == outcome.text.value
    ensures outcome.Answered? && (outcome.text.None? || outcome.text.value == "") ==> text == NO_RESPONSE
  {
    match outcome
    case Answered(t) => if t.Some? && t.value != "" then t.value else NO_RESPONSE
    case RequestFailed => FAILURE_TEXT
  }

  /** `completion`: sends the built prompt, passes the settled text to
      `onPartial` exactly once (the returned `partials` are the tokens it
      received) and returns that same text; it never fails. */
  method Completion(prompt: string, chatHistory: seq<Message>, outcome: HttpOutcome)
    returns (text: string, partials: seq<string>, request: string)
    ensures request == Join(PromptParts(AI_PERSONA, prompt, chatHistory), "\n\n")
    ensures text == ReplyText(outcome) && partials == [text]
  {
    request := BuildPrompt(AI_PERSONA, prompt, chatHistory);
    match outcome {
      case Answered(t) =>
        text := if t.Some? && t.value != "" then t.value else NO_RESPONSE;
      case RequestFailed =>
        text := FAILURE_TEXT;
    }
    partials := [text];
  }

  /** The introduction request, naming the user when a name is known. */
  function WelcomePrompt(persona: string, userName: string): string {
    var userGreeting := if userName != "" then "for " + userName else "";
    persona
    + WELCOME_REQUEST + userGreeting + WELCOME_CLOSE
  }

  /** The greeting used when the introduction request fails. */
  function FallbackGreeting(userName: string): string {
    var greeting := if userName != "" then "Hi " + userName + "!" else "Hi!";
    greeting + FALLBACK_TAIL
  }

  /** `initialCompletion`: like `completion`, with the welcome prompt and the
      personal greeting as its failure text. */
  method InitialCompletion(userName: string, outcome: HttpOutcome)
    returns (text: string, partials: seq<string>, request: string)
    ensures request == WelcomePrompt(AI_PERSONA, userName)
    ensures text == if outcome.RequestFailed? then FallbackGreeting(userName) else ReplyText(outcome)
    ensures partials == [text]
  {
    request := WelcomePrompt(AI_PERSONA, userName);
    match outcome {
      case Answered(t) =>
        text := if t.Some? && t.value != "" then t.value else NO_RESPONSE;
      case RequestFailed =>
        text := FallbackGreeting(userName);
    }
    partials := [text];
  }

  /** A known name is addressed in the welcome prompt ("for <name>") and in
      the fallback greeting ("Hi <name>!"). */
  lemma WelcomeAddressesUser(persona: string, userName: string)
    ensures userName != "" ==> Contains(WelcomePrompt(persona, userName), "for " + userName)
    ensures userName != "" ==> "Hi " + userName + "!" <= FallbackGreeting(userName)
  {
    if userName != "" {
      var head := persona + WELCOME_REQUEST;
      var sub := "for " + userName;
      var s := WelcomePrompt(persona, userName);
      assert s == head + sub + WELCOME_CLOSE;
      assert s[|head|..|head| + |sub|] == sub;
      ContainsAt(s, sub, |head|);
    }
  }
}

/// The assistant chat screen: who the user is, the newest-first message log
/// it keeps, and how it loads, sends, receives replies, saves and resets.
module Chatbot {
  import opened Wrappers
  import opened Text
  import opened Values
  import opened GeminiService

  // ---------------------------------------------------------------------------
  // Identity
  // ---------------------------------------------------------------------------

  /** The navigation parameters the screen may be opened with; "" stands for
      a missing or empty parameter. */
  datatype RouteParams = RouteParams(userName: string, userId: string)

  /** The name shown to the assistant and the id that keys the history. */
  datatype Identity = Identity(name: string, id: string)

  /** The identity effect: the signed-in user (display name or "User", and
      the uid), else the route's user name (and its id, or the name again),
      else the guest identity. */
  function ResolveIdentity(user: Option<AuthUser>, params: Option<RouteParams>): (who: Identity)
    ensures who.name != ""
    ensures user.Some? ==> who.id == user.value.uid
    ensures user.Some? && user.value.displayName.Some? && user.value.displayName.value != ""
            ==> who.name == user.value.displayName.value
    ensures user.Some? && (user.value.displayName.None? || user.value.displayName.value == "") ==> who.name == "User"
    ensures user.None? ==> who.id != ""
    ensures user.None? && params.Some? && params.value.userName != ""
            ==> who.name == params.value.userName
                && who.id == (if params.value.userId != "" then params.value.userId else params.value.userName)
    ensures user.None? && (params.None? || params.value.userName == "") ==> who == Identity("Guest", "guest")
  {
    match user
    case Some(u) =>
      var name := if u.displayName.Some? && u.displayName.value != "" then u.displayName.value else "User";
      Identity(name, u.uid)
    case None =>
      if params.Some? && params.value.userName != "" then
        var p := params.value;
        Identity(p.userName, if p.userId != "" then p.userId else p.userName)
      else
        Identity("Guest", "guest")
  }

  // ---------------------------------------------------------------------------
  // Log transformations
  // ---------------------------------------------------------------------------

  /** A well-formed id as the screen's generator makes them ("<time>-<random>"):
      present and containing a dash. */
  predicate ValidId(id: string) {
    '-' in id
  }

  /** The ids of a log are pairwise distinct. */
  predicate DistinctIds(messages: seq<Message>) {
    forall i, j :: 0 <= i < j < |messages| ==> messages[i].id != messages[j].id
  }

  /** The ids used in a log. */
  function Ids(messages: seq<Message>): set<string> {
    set m | m in messages :: m.id
  }

  /** The id repair applied to a loaded history: a message keeps its id when
      the id is valid, otherwise it gets the generator's id for its position
      (`freshId(i)`); authors and texts are kept. */
  function RepairIds(history: seq<Message>, freshId: nat -> string): (repaired: seq<Message>)
    ensures |repaired| == |history|
    ensures forall i :: 0 <= i < |history| ==>
              repaired[i].author == history[i].author && repaired[i].text == history[i].text
    ensures forall i :: 0 <= i < |history| ==>
              (repaired[i].id == history[i].id <==> ValidId(history[i].id) || freshId(i) == history[i].id)
  {
    seq(|history|, i requires 0 <= i < |history| =>
      var m := history[i];
      if ValidId(m.id) then m else m.(id := freshId(i)))
  }

  /** When every generated id is valid, repair leaves only valid ids, and
      repairing again changes nothing. */
  lemma RepairIdsIdempotent(history: seq<Message>, freshId: nat -> string)
    requires forall n :: ValidId(freshId(n))
    ensures forall i :: 0 <= i < |history| ==> ValidId(RepairIds(history, freshId)[i].id)
    ensures RepairIds(RepairIds(history, freshId), freshId) == RepairIds(history, freshId)
  {
    var once := RepairIds(history, freshId);
    assert forall i :: 0 <= i < |history| ==> ValidId(once[i].id);
    assert forall i :: 0 <= i < |history| ==> RepairIds(once, freshId)[i] == once[i];
  }

  /** A history whose ids are all valid is restored exactly. */
  lemma RepairKeepsValidHistory(history: seq<Message>, freshId: nat -> string)
    requires forall i :: 0 <= i < |history| ==> ValidId(history[i].id)
    ensures RepairIds(history, freshId) == history
  {
    assert forall i :: 0 <= i < |history| ==> RepairIds(history, freshId)[i] == history[i];
  }

  /** `addMessage`: a new message in front of the log. */
  function AddMessage(id: string, author: Author, text: string, messages: seq<Message>): (r: seq<Message>)
    ensures |r| == |messages| + 1 && r[1..] == messages
    ensures r[0] == Message(id, author, text)
  {
    [Message(id, author, text)] + messages
  }

  /** The two messages an accepted send puts in front of the log: the empty
      assistant placeholder, then the user's message. */
  function SendPrepend(aiId: string, userMessageId: string, input: string, messages: seq<Message>)
    : (r: seq<Message>)
    ensures |r| == |messages| + 2 && r[2..] == messages
    ensures r[0] == Message(aiId, AI, "") && r[1] == Message(userMessageId, USER, input)
  {
    [Message(aiId, AI, ""), Message(userMessageId, USER, input)] + messages
  }

  /** `onPartialCompletion`'s update: the token is appended to the text of
      the newest message when the assistant wrote it; nothing else changes. */
  function PatchNewest(messages: seq<Message>, token: string): (r: seq<Message>)
    ensures |r| == |messages|
    ensures forall i :: 0 < i < |messages| ==> r[i] == messages[i]
    ensures |messages| > 0 && messages[0].author.id == AI.id
            ==> r[0] == messages[0].(text := messages[0].text + token)
    ensures |messages| == 0 || messages[0].author.id != AI.id ==> r == messages
  {
    seq(|messages|, i requires 0 <= i < |messages| =>
      var m := messages[i];
      if i == 0 && m.author.id == AI.id then m.(text := m.text + token) else m)
  }

  /** A send followed by its reply: the placeholder now holds the reply, the
      user's message follows it, and the previous log is untouched. */
  lemma SendThenReply(aiId: string, userMessageId: string, input: string, reply: string, messages: seq<Message>)
    ensures PatchNewest(SendPrepend(aiId, userMessageId, input, messages), reply)
            == [Message(aiId, AI, reply), Message(userMessageId, USER, input)] + messages
  {
    var sent := SendPrepend(aiId, userMessageId, input, messages);
    var r := PatchNewest(sent, reply);
    var expected := [Message(aiId, AI, reply), Message(userMessageId, USER, input)] + messages;
    assert "" + reply == reply;
    assert forall i :: 0 <= i < |r| ==> r[i] == expected[i];
  }

  /** Sending with two new ids not used in the log, and distinct from each
      other, keeps the log's ids distinct. */
  lemma SendKeepsIdsDistinct(aiId: string, userMessageId: string, input: string, messages: seq<Message>)
    requires DistinctIds(messages)
    requires aiId != userMessageId && aiId !in Ids(messages) && userMessageId !in Ids(messages)
    ensures DistinctIds(SendPrepend(aiId, userMessageId, input, messages))
  {
    var r := SendPrepend(aiId, userMessageId, input, messages);
    forall i, j | 0 <= i < j < |r|
      ensures r[i].id != r[j].id
    {
      if i >= 2 {
        assert r[i] == messages[i - 2] && r[j] == messages[j - 2];
      } else if j >= 2 {
        assert r[j] in messages;
      }
    }
  }

  /** Whether the save effect writes: the log is non-empty and the user id is known. */
  predicate ShouldSave(messages: seq<Message>, userId: string) {
    |messages| > 0 && userId != ""
  }

  /** A log saved by the effect and read back for the same user is restored
      exactly, once its ids are valid. */
  lemma ReloadRestoresLog(items: map<string, Stored>, messages: seq<Message>, userId: string,
                          freshId: nat -> string)
    requires ShouldSave(messages, userId)
    requires forall i :: 0 <= i < |messages| ==> ValidId(messages[i].id)
    ensures |StoredLog(ItemsAfterSave(items, messages, userId), userId)| > 0
    ensures RepairIds(StoredLog(ItemsAfterSave(items, messages, userId), userId), freshId) == messages
  {
    LoadAfterSave(items, messages, userId);
    RepairKeepsValidHistory(messages, freshId);
  }

  // ---------------------------------------------------------------------------
  // The screen
  // ---------------------------------------------------------------------------

  /** The screen's state slots. */
  class ChatScreen {
    var messages: seq<Message>
    var inputText: string
    var isLoading: bool
    var isResponding: bool
    var userName: string
    var userId: string

    constructor ()
      ensures messages == [] && inputText == "" && isLoading && !isResponding
      ensures userName == "" && userId == ""
    {
      messages := [];
      inputText := "";
      isLoading := true;
      isResponding := false;
      userName := "";
      userId := "";
    }

    /** The identity effect. */
    method ResolveUser(user: Option<AuthUser>, params: Option<RouteParams>)
      modifies this
      ensures Identity(userName, userId) == ResolveIdentity(user, params)
      ensures messages == old(messages) && inputText == old(inputText)
      ensures isLoading == old(isLoading) && isResponding == old(isResponding)
    {
      if user.Some? {
        var u := user.value;
        userName := if u.displayName.Some? && u.displayName.value != "" then u.displayName.value else "User";
        userId := u.uid;
      } else if params.Some? && params.value.userName != "" {
        userName := params.value.userName;
        userId := if params.value.userId != "" then params.value.userId else params.value.userName;
      } else {
        userName := "Guest";
        userId := "guest";
      }
    }

    /** The load effect, run when the user id changes (nothing happens while
        it is empty): a saved history replaces the log after id repair;
        otherwise the empty assistant placeholder is put in front of the log
        and the welcome request is started (`welcomeRequested`). */
    method LoadChatHistory(storage: AsyncStorage, ioOk: bool, freshId: nat -> string, welcomeId: string)
      returns (welcomeRequested: bool)
      modifies this
      ensures old(userId) == "" ==> messages == old(messages) && isLoading == old(isLoading) && !welcomeRequested
      ensures old(userId) != "" ==>
                var history := if ioOk then StoredLog(storage.items, old(userId)) else [];
                && !isLoading
                && welcomeRequested == (|history| == 0)
                && messages == if |history| > 0 then RepairIds(history, freshId)
                               else AddMessage(welcomeId, AI, "", old(messages))
      ensures userId == old(userId) && userName == old(userName)
      ensures inputText == old(inputText) && isResponding == old(isResponding)
    {
      welcomeRequested := false;
      if userId == "" {
        return;
      }
      isLoading := true;
      var history := LoadHistory(storage, userId, ioOk);
      if |history| > 0 {
        messages := RepairIds(history, freshId);
      } else {
        messages := AddMessage(welcomeId, AI, "", messages);
        welcomeRequested := true;
      }
      isLoading := false;
    }

    /** `onPartialCompletion`. */
    method OnPartialCompletion(token: string)
      modifies this
      ensures messages == PatchNewest(old(messages), token)
      ensures inputText == old(inputText) && isLoading == old(isLoading) && isResponding == old(isResponding)
      ensures userName == old(userName) && userId == old(userId)
    {
      messages := PatchNewest(messages, token);
    }

    /** The welcome request started by a load or a reset, once it settles:
        its one token is applied to the log. */
    method FinishWelcome(outcome: HttpOutcome) returns (request: string)
      modifies this
      ensures request == WelcomePrompt(AI_PERSONA, old(userName))
      ensures messages == PatchNewest(old(messages),
                                      if outcome.RequestFailed? then FallbackGreeting(old(userName))
                                      else ReplyText(outcome))
      ensures inputText == old(inputText) && isLoading == old(isLoading) && isResponding == old(isResponding)
      ensures userName == old(userName) && userId == old(userId)
    {
      var text, partials;
      text, partials, request := InitialCompletion(userName, outcome);
      // `onPartial` receives exactly one token.
      OnPartialCompletion(partials[0]);
    }

    /** `handleSend`: ignored when the input is blank or a reply is pending;
        otherwise the placeholder and the user's message go in front of the
        log, the input is cleared, the completion is requested with that log,
        its one token fills the placeholder, and the pending flag is cleared. */
    method HandleSend(aiId: string, userMessageId: string, outcome: HttpOutcome) returns (request: Option<string>)
      modifies this
      ensures old(Trim(inputText) == "" || isResponding) ==>
                request.None? && messages == old(messages) && inputText == old(inputText)
                && isResponding == old(isResponding)
      ensures old(Trim(inputText) != "" && !isResponding) ==>
                && request == Some(Join(PromptParts(AI_PERSONA, old(inputText),
                                                    SendPrepend(aiId, userMessageId, old(inputText), old(messages))),
                                        "\n\n"))
                && messages == [Message(aiId, AI, ReplyText(outcome)), Message(userMessageId, USER, old(inputText))]
                               + old(messages)
                && inputText == "" && !isResponding
      ensures isLoading == old(isLoading) && userName == old(userName) && userId == old(userId)
    {
      request := None;
      if Trim(inputText) != "" && !isResponding {
        isResponding := true;
        var userInput := inputText;
        inputText := "";
        var updatedMessages := SendPrepend(aiId, userMessageId, userInput, messages);
        messages := updatedMessages;
        var text, partials, sent := Completion(userInput, updatedMessages, outcome);
        request := Some(sent);
        OnPartialCompletion(partials[0]);
        SendThenReply(aiId, userMessageId, userInput, text, old(messages));
        isResponding := false;
      }
    }

    /** The save effect, run when the log or the user id changes. */
    method SaveEffect(storage: AsyncStorage, ioOk: bool)
      modifies storage
      ensures storage.items == if ShouldSave(messages, userId) && ioOk
                               then ItemsAfterSave(old(storage.items), messages, userId)
                               else old(storage.items)
    {
      if |messages| > 0 && userId != "" {
        SaveHistory(storage, messages, userId, ioOk);
      }
    }

    /** `clearHistory`: after the user confirms, the stored history is
        removed (a storage error is only reported), the log becomes the
        single empty assistant placeholder and the welcome request starts.
        Cancelling changes nothing. */
    method ClearHistory(confirmed: bool, storage: AsyncStorage, ioOk: bool, welcomeId: string)
      returns (welcomeRequested: bool)
      modifies this, storage
      ensures welcomeRequested == confirmed
      ensures confirmed ==> messages == [Message(welcomeId, AI, "")]
      ensures !confirmed ==> messages == old(messages)
      ensures storage.items == if confirmed && ioOk then ItemsAfterClear(old(storage.items), old(userId))
                               else old(storage.items)
      ensures inputText == old(inputText) && isLoading == old(isLoading) && isResponding == old(isResponding)
      ensures userName == old(userName) && userId == old(userId)
    {
      welcomeRequested := false;
      if confirmed {
        var cleared := GeminiService.ClearHistory(storage, userId, ioOk);
        messages := [];
        messages := AddMessage(welcomeId, AI, "", messages);
        welcomeRequested := true;
      }
    }
  }
}

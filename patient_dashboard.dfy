/**
 * The patient dashboard's chat: the session list and the active session,
 * the message list the chat shows, the send guard, the mood selector and
 * its labels. Database queries and the assistant's reply are outcomes
 * handed to the operations.
 */
module PatientDashboard {
  import opened Wrappers
  import opened Text
  import opened Store

  datatype Role = UserRole | AssistantRole

  datatype ChatMessage = ChatMessage(role: Role, content: string)

  /** A row of the `messages` table: its role is free text. */
  datatype MessageRow = MessageRow(role: string, content: string)

  /** A row of the `chat_sessions` table. */
  datatype SessionRow = SessionRow(id: string, createdAt: int, lastUpdated: int, title: Option<string>)

  /** The outcome of a query returning rows of type `T`. */
  datatype Rows<T> = RowsLoaded(rows: seq<T>) | QueryFailed

  /** The row written to `patient_mood_logs`. */
  datatype MoodLog = MoodLog(patientId: string, moodScore: int, notes: string)

  // ---------------------------------------------------------------------
  // Pure parts.

  /** The role name stored in a row. */
  function RoleName(r: Role): string {
    match r
    case UserRole => "user"
    case AssistantRole => "assistant"
  }

  /** `assistant` stays the assistant; every other stored role is shown as the user. */
  function NormaliseRole(name: string): (r: Role)
    ensures r == AssistantRole <==> name == "assistant"
  {
    if name == "assistant" then AssistantRole else UserRole
  }

  /** Normalising a role name written by the page gives the role back. */
  lemma NormaliseRoleName(r: Role)
    ensures NormaliseRole(RoleName(r)) == r
  {
  }

  /** `fetchMessages`' mapping: one message per row, in the same order, with its role normalised. */
  function FormatMessages(rows: seq<MessageRow>): (ms: seq<ChatMessage>)
    ensures |ms| == |rows|
    ensures forall i :: 0 <= i < |rows| ==>
              ms[i].content == rows[i].content && (ms[i].role == AssistantRole <==> rows[i].role == "assistant")
  {
    seq(|rows|, i requires 0 <= i < |rows| => ChatMessage(NormaliseRole(rows[i].role), rows[i].content))
  }

  /** A list of messages stored by the page comes back unchanged. */
  lemma FormatMessagesRoundTrip(ms: seq<ChatMessage>)
    ensures FormatMessages(seq(|ms|, i requires 0 <= i < |ms| => MessageRow(RoleName(ms[i].role), ms[i].content))) == ms
  {
    var rows := seq(|ms|, i requires 0 <= i < |ms| => MessageRow(RoleName(ms[i].role), ms[i].content));
    forall i | 0 <= i < |ms| ensures FormatMessages(rows)[i] == ms[i] {
      NormaliseRoleName(ms[i].role);
    }
  }

  /** `saveCurrentMood`'s guard: a user, a mood other than none or zero, and an active session. */
  predicate MayLogMood(user: Option<User>, mood: Option<int>, activeSession: Option<string>)
    ensures MayLogMood(user, mood, activeSession) ==> user.Some? && mood.Some? && activeSession.Some?
    ensures user.None? || mood.None? || mood == Some(0) || activeSession.None? || activeSession == Some("") ==>
              !MayLogMood(user, mood, activeSession)
  {
    user.Some? && mood.Some? && mood.value != 0 && Truthy(activeSession)
  }

  const DefaultMoodPrompt: string := "Seleziona come ti senti oggi"

  /** The caption under the mood selector. */
  function MoodLabel(mood: Option<int>): (caption: string)
    ensures caption == DefaultMoodPrompt <==> !(mood.Some? && 1 <= mood.value <= 5)
  {
    if mood == Some(1) then "Molto negativo"
    else if mood == Some(2) then "Negativo"
    else if mood == Some(3) then "Neutro"
    else if mood == Some(4) then "Positivo"
    else if mood == Some(5) then "Molto positivo"
    else DefaultMoodPrompt
  }

  /** The five moods have five different captions. */
  lemma MoodLabelsDistinct(a: int, b: int)
    requires 1 <= a <= 5 && 1 <= b <= 5 && a != b
    ensures MoodLabel(Some(a)) != MoodLabel(Some(b))
  {
    var la, lb := MoodLabel(Some(a)), MoodLabel(Some(b));
    assert |la| != |lb| || la[0] != lb[0] || la[6] != lb[6];
  }

  // ---------------------------------------------------------------------
  // The page's state and handlers.

  class Page {
    var sessions: seq<SessionRow>
    var activeSession: Option<string>
    var messages: seq<ChatMessage>
    var inputMessage: string
    var isSending: bool
    var currentMood: Option<int>

    constructor ()
      ensures sessions == [] && activeSession.None? && messages == []
      ensures inputMessage == "" && !isSending && currentMood.None?
    {
      sessions, activeSession, messages := [], None, [];
      inputMessage, isSending, currentMood := "", false, None;
    }

    /**
     * `fetchSessions`: without a user nothing happens; a failed query changes
     * nothing; otherwise the list is replaced and, if no session is active
     * yet, the most recently updated one becomes active and its messages are
     * requested (the returned id).
     */
    method FetchSessions(user: Option<User>, outcome: Rows<SessionRow>) returns (loadMessagesOf: Option<string>)
      modifies this`sessions, this`activeSession
      ensures user.None? || outcome.QueryFailed? ==>
                sessions == old(sessions) && activeSession == old(activeSession) && loadMessagesOf.None?
      ensures user.Some? && outcome.RowsLoaded? ==> sessions == outcome.rows
      ensures user.Some? && outcome.RowsLoaded? && outcome.rows != [] && !Truthy(old(activeSession)) ==>
                activeSession == Some(outcome.rows[0].id) && loadMessagesOf == activeSession
      ensures user.Some? && outcome.RowsLoaded? && (outcome.rows == [] || Truthy(old(activeSession))) ==>
                activeSession == old(activeSession) && loadMessagesOf.None?
    {
      loadMessagesOf := None;
      if user.Some? && outcome.RowsLoaded? {
        sessions := outcome.rows;
        if outcome.rows != [] && !Truthy(activeSession) {
          activeSession := Some(outcome.rows[0].id);
          loadMessagesOf := activeSession;
        }
      }
    }

    /** Clicking a session in the list makes it active and requests its messages (the returned id). */
    method SelectSession(id: string) returns (loadMessagesOf: string)
      modifies this`activeSession
      ensures activeSession == Some(id)
      ensures loadMessagesOf == id
    {
      activeSession := Some(id);
      loadMessagesOf := id;
    }

    /** `fetchMessages`: an empty id or a failed query changes nothing; otherwise the list is replaced. */
    method FetchMessages(sessionId: string, outcome: Rows<MessageRow>)
      modifies this`messages
      ensures sessionId == "" || outcome.QueryFailed? ==> messages == old(messages)
      ensures sessionId != "" && outcome.RowsLoaded? ==> messages == FormatMessages(outcome.rows)
    {
      if sessionId != "" && outcome.RowsLoaded? {
        messages := FormatMessages(outcome.rows);
      }
    }

    /**
     * `createNewSession`: without a user or on a failed insert nothing
     * happens; otherwise the session list is requested again (`refetch`) and,
     * when the insert returned a row, it becomes the active session with no
     * messages.
     */
    method CreateNewSession(user: Option<User>, inserted: Rows<SessionRow>) returns (refetch: bool)
      modifies this`activeSession, this`messages
      ensures refetch <==> user.Some? && inserted.RowsLoaded?
      ensures refetch && inserted.rows != [] ==> activeSession == Some(inserted.rows[0].id) && messages == []
      ensures !(refetch && inserted.rows != []) ==> activeSession == old(activeSession) && messages == old(messages)
    {
      refetch := user.Some? && inserted.RowsLoaded?;
      if refetch && inserted.rows != [] {
        activeSession := Some(inserted.rows[0].id);
        messages := [];
      }
    }

    method SetInput(text: string)
      modifies this`inputMessage
      ensures inputMessage == text
    {
      inputMessage := text;
    }

    method SetMood(mood: Option<int>)
      modifies this`currentMood
      ensures currentMood == mood
    {
      currentMood := mood;
    }

    /**
     * `sendMessage`, up to the assistant request: with blank input or no
     * active session nothing happens; otherwise the user's message is
     * appended, the input cleared and `isSending` raised. Returns the text
     * sent to the assistant.
     */
    method BeginSend() returns (sent: Option<string>)
      modifies this`messages, this`inputMessage, this`isSending
      ensures IsBlank(old(inputMessage)) || !Truthy(activeSession) ==>
                sent.None? && messages == old(messages) && inputMessage == old(inputMessage) && isSending == old(isSending)
      ensures !IsBlank(old(inputMessage)) && Truthy(activeSession) ==>
                && sent == Some(old(inputMessage))
                && messages == old(messages) + [ChatMessage(UserRole, old(inputMessage))]
                && inputMessage == "" && isSending
    {
      sent := None;
      if !IsBlank(inputMessage) && Truthy(activeSession) {
        sent := Some(inputMessage);
        messages := messages + [ChatMessage(UserRole, inputMessage)];
        inputMessage := "";
        isSending := true;
      }
    }

    /**
     * `sendMessage`, once the assistant request settles: a reply is appended
     * after everything already shown; `isSending` is lowered on every path.
     */
    method CompleteSend(reply: Option<string>)
      modifies this`messages, this`isSending
      ensures !isSending
      ensures reply.Some? ==> messages == old(messages) + [ChatMessage(AssistantRole, reply.value)]
      ensures reply.None? ==> messages == old(messages)
    {
      if reply.Some? {
        messages := messages + [ChatMessage(AssistantRole, reply.value)];
      }
      isSending := false;
    }

    /** `saveCurrentMood`: the mood log row written, if the guard lets it through. */
    method SaveMood(user: Option<User>) returns (log: Option<MoodLog>)
      ensures log.Some? <==> MayLogMood(user, currentMood, activeSession)
      ensures log.Some? ==> log.value == MoodLog(user.value.id, currentMood.value, "Sessione: " + activeSession.value)
    {
      if MayLogMood(user, currentMood, activeSession) {
        log := Some(MoodLog(user.value.id, currentMood.value, "Sessione: " + activeSession.value));
      } else {
        log := None;
      }
    }
  }

  /**
   * A full exchange keeps what was shown: the user's message and the reply
   * are appended, in that order, after the earlier messages.
   */
  method SendExchange(p: Page, text: string, reply: string) returns (sent: Option<string>)
    requires !IsBlank(text) && Truthy(p.activeSession)
    modifies p
    ensures sent == Some(text)
    ensures p.messages == old(p.messages) + [ChatMessage(UserRole, text), ChatMessage(AssistantRole, reply)]
    ensures p.inputMessage == "" && !p.isSending
  {
    p.SetInput(text);
    sent := p.BeginSend();
    p.CompleteSend(Some(reply));
  }
}

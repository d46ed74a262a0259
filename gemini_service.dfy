/**
 * The chat-assistant façade: one lazily created, memoised chat session with a
 * hosted generative-text service, and a send operation that never fails but
 * maps every outcome to a string the chat widget can show.
 *
 * The remote client library is opaque. Its behaviour enters the model as two
 * abstract outcomes supplied by the caller: whether constructing the client and
 * the chat succeeds or throws, and whether the remote call yields a reply (with
 * or without text) or throws.
 */
module GeminiService {
  import opened Wrappers

  /** The model every session is created with. */
  const MODEL: string := "gemini-2.5-flash"

  /** The system instruction every session is created with, character for character. */
  const SYSTEM_INSTRUCTION: string :=
    "You are the AI Strategy Consultant for Bizwiz Digital Agency.\n"
    + "      Founded in 2020 by Akshansh Sharma (Award-winning marketing expert).\n"
    + "      \n"
    + "      Tone: Professional, authoritative, yet approachable and innovative. \n"
    + "      \n"
    + "      Core Competencies:\n"
    + "      - Industries: Luxury Real Estate, Web3, SaaS, Bespoke Tourism, Fintech.\n"
    + "      - Services: Branding, Web Design, SEO, Performance Marketing (PPC), AI Automation.\n"
    + "      - Key Stats: 250+ Projects, 95% Retention, 150% Avg ROI.\n"
    + "      \n"
    + "      Goal: Help users understand how Bizwiz can transform their business. If they ask for pricing or a proposal, encourage them to use the \"Get Consultation\" button or email Contact@BizwizAgency.com.\n"
    + "      \n"
    + "      Keep responses concise (under 3 sentences where possible)."

  /** Returned when no API key is configured. */
  const OFFLINE: string := "I'm currently offline (API Key missing). Please contact us directly via email."

  /** Returned when the reply carries no text, or empty text. */
  const CLARIFY: string := "I didn't quite catch that. Could you rephrase?"

  /** Returned when creating the session or sending the message throws. */
  const APOLOGY: string := "My connection is unstable. Please email our team at Contact@BizwizAgency.com."

  /**
   * A chat session handle. `serial` tells handles apart: it is the number of
   * sessions constructed before this one.
   */
  datatype Session = Session(serial: nat, model: string, systemInstruction: string)

  /** Whether constructing the client and creating the chat succeeds or throws. */
  datatype Creation = Creates | Throws

  /** What `chat.sendMessage` does: resolve to a response whose `text` may be absent, or throw. */
  datatype RemoteOutcome = Reply(text: Option<string>) | Failure

  /** One message forwarded to the remote service, and the session it went through. */
  datatype Exchange = Exchange(session: Session, message: string)

  /** `process.env.API_KEY || ''`: an absent key reads as the empty string. */
  function ApiKey(env: Option<string>): (key: string)
    ensures env.Some? ==> key == env.value
    ensures env.None? ==> key == ""
  {
    if env.Some? && env.value != "" then env.value else ""
  }

  /**
   * `response.text || CLARIFY`: the reply text when it is present and not
   * empty, the clarification prompt otherwise.
   */
  function ReplyText(text: Option<string>): (s: string)
    ensures s != ""
    ensures text.Some? && text.value != "" ==> s == text.value
    ensures text.None? || text.value == "" ==> s == CLARIFY
  {
    if text.Some? && text.value != "" then text.value else CLARIFY
  }

  /**
   * The string `sendMessageToGemini` resolves to, given whether a key is
   * configured, whether a session is available once initialisation has run,
   * and what the remote call does. It is never empty, and it is either the
   * remote reply's own text or one of the three fixed strings.
   */
  function Answer(keyConfigured: bool, sessionAvailable: bool, remote: RemoteOutcome): (s: string)
    ensures s != ""
    ensures s in {OFFLINE, CLARIFY, APOLOGY} || (remote.Reply? && remote.text == Some(s))
    ensures !keyConfigured ==> s == OFFLINE
    ensures keyConfigured && !sessionAvailable ==> s == APOLOGY
    ensures keyConfigured && sessionAvailable && remote.Failure? ==> s == APOLOGY
    ensures keyConfigured && sessionAvailable && remote.Reply? ==> s == ReplyText(remote.text)
  {
    if !keyConfigured then OFFLINE
    else if !sessionAvailable then APOLOGY
    else match remote
      case Failure => APOLOGY
      case Reply(text) => ReplyText(text)
  }

  /** The three fixed strings are different, so the caller can tell the outcomes apart. */
  lemma CannedStringsDistinct()
    ensures OFFLINE != CLARIFY && OFFLINE != APOLOGY && CLARIFY != APOLOGY
  {
    assert |OFFLINE| == 78 && |CLARIFY| == 46 && |APOLOGY| == 77;
  }

  /**
   * The module-level state of the service: the configured key (read once when
   * the module loads), the memoised `chatSession`, how many sessions have been
   * constructed, and the messages forwarded to the remote service.
   */
  class ChatService {
    const apiKey: string
    var chatSession: Option<Session>
    var constructed: nat
    var forwarded: seq<Exchange>

    /**
     * At most one session is ever constructed; it is the memoised one, it was
     * created with the fixed model and instruction, and every message
     * forwarded so far went through it.
     */
    ghost predicate Valid()
      reads this
    {
      && constructed <= 1
      && (chatSession.Some? <==> constructed == 1)
      && (chatSession.Some? ==> chatSession.value == Session(0, MODEL, SYSTEM_INSTRUCTION))
      && (forall i :: 0 <= i < |forwarded| ==> chatSession == Some(forwarded[i].session))
    }

    /** The module as loaded: the key read from the environment, no session yet. */
    constructor (env: Option<string>)
      ensures Valid()
      ensures apiKey == ApiKey(env)
      ensures chatSession == None && constructed == 0 && forwarded == []
    {
      apiKey := ApiKey(env);
      chatSession := None;
      constructed := 0;
      forwarded := [];
    }

    /**
     * `initializeChat`: return the memoised session if there is one; otherwise
     * construct the client and the chat and memoise it. `None` stands for the
     * exception thrown when construction fails, which leaves nothing memoised.
     */
    method InitializeChat(creation: Creation) returns (chat: Option<Session>)
      requires Valid()
      modifies this
      ensures Valid()
      ensures old(chatSession).Some? ==> chat == old(chatSession) && constructed == old(constructed)
      ensures old(chatSession).None? && creation == Creates ==> chat.Some? && constructed == old(constructed) + 1
      ensures old(chatSession).None? && creation == Throws ==> chat == None && constructed == old(constructed)
      ensures chat.Some? ==> chat.value.model == MODEL && chat.value.systemInstruction == SYSTEM_INSTRUCTION
      ensures chatSession == chat
      ensures forwarded == old(forwarded)
    {
      if chatSession.Some? {
        return chatSession;
      }
      if creation == Throws {
        return None;
      }
      chatSession := Some(Session(constructed, MODEL, SYSTEM_INSTRUCTION));
      constructed := constructed + 1;
      chat := chatSession;
    }

    /**
     * `sendMessageToGemini(message)`: the offline notice without a key (and no
     * session, no remote call); otherwise initialise, forward the message and
     * map the outcome to the reply text, the clarification prompt or the apology.
     */
    method SendMessage(message: string, creation: Creation, remote: RemoteOutcome) returns (reply: string)
      requires Valid()
      modifies this
      ensures Valid()
      ensures reply == Answer(apiKey != "", chatSession.Some?, remote)
      ensures apiKey == "" ==> reply == OFFLINE
      ensures apiKey == "" ==> chatSession == old(chatSession) && constructed == old(constructed) && forwarded == old(forwarded)
      ensures apiKey != "" ==> chatSession == if old(chatSession).Some? || creation == Creates then Some(Session(0, MODEL, SYSTEM_INSTRUCTION)) else None
      ensures apiKey != "" && chatSession.Some? ==> forwarded == old(forwarded) + [Exchange(chatSession.value, message)]
      ensures apiKey != "" && chatSession.None? ==> reply == APOLOGY && forwarded == old(forwarded) && constructed == 0
      ensures constructed <= 1 && (old(constructed) == 1 ==> constructed == 1)
    {
      if apiKey == "" {
        return OFFLINE;
      }
      var chat := InitializeChat(creation);
      if chat.None? {
        return APOLOGY;
      }
      forwarded := forwarded + [Exchange(chat.value, message)];
      match remote
      case Failure =>
        reply := APOLOGY;
      case Reply(text) =>
        reply := ReplyText(text);
    }
  }

  /** Without a key the same offline notice comes back for every message, and nothing is created or sent. */
  method OfflineWhateverTheInput(m1: string, m2: string, remote: RemoteOutcome) returns (r1: string, r2: string, sent: nat, sessions: nat)
    ensures r1 == OFFLINE && r2 == OFFLINE
    ensures sent == 0 && sessions == 0
  {
    var service := new ChatService(None);
    r1 := service.SendMessage(m1, Creates, remote);
    r2 := service.SendMessage(m2, Creates, remote);
    sent, sessions := |service.forwarded|, service.constructed;
  }

  /**
   * A failed creation yields the apology and memoises nothing, so the next
   * message tries creation again; the session then created serves every later
   * message, and is the only one ever constructed.
   */
  method RetryAfterFailedCreation(key: string, reply: string) returns (r1: string, r2: string, r3: string, sessions: nat, sent: nat)
    requires key != "" && reply != ""
    ensures r1 == APOLOGY
    ensures r2 == reply
    ensures r3 == CLARIFY
    ensures sessions == 1 && sent == 2
  {
    var service := new ChatService(Some(key));
    r1 := service.SendMessage("What services do you offer?", Throws, Reply(Some(reply)));
    r2 := service.SendMessage("What services do you offer?", Creates, Reply(Some(reply)));
    r3 := service.SendMessage("And pricing?", Throws, Reply(Some("")));
    sessions, sent := service.constructed, |service.forwarded|;
  }

  /** A remote failure on an existing session yields the apology and keeps the session for the next message. */
  method FailureKeepsSession(key: string, reply: string) returns (r1: string, r2: string, sessions: nat)
    requires key != "" && reply != ""
    ensures r1 == APOLOGY && r2 == reply
    ensures sessions == 1
  {
    var service := new ChatService(Some(key));
    r1 := service.SendMessage("Hello", Creates, Failure);
    r2 := service.SendMessage("Hello again", Throws, Reply(Some(reply)));
    sessions := service.constructed;
  }
}

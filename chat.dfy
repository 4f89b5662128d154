/** The `/chat` handler (server.js lines 29-93): one conversation turn against
    the process-wide session store.

    The storefront's product list and the completion service are inputs: the
    list (or the error `getProducts()` threw) is a `Fetch` value, and the
    completion service is a function from the message list to an outcome. */
module ChatEndpoint {
  import opened Text
  import opened Intent
  import opened Catalog
  import opened Prompt

  datatype Option<T> = None | Some(value: T)

  /** What `getProducts()` gave: a product list, or a thrown error. */
  datatype Fetch = Products(items: seq<Product>) | FetchError

  /** What the completion service gave for a message list. */
  datatype Completion = Ok(reply: string) | Fail

  /** The three kinds of response: the 400 for an empty message, the reply,
      and the fixed reply written by the `catch` block. */
  datatype Response = BadRequest(error: string) | Success(reply: string) | Fallback(reply: string)

  const EmptyMessageError: string := "Mensaje vacío"

  const FallbackReply: string :=
    "Ahora mismo no pude responder correctamente. Un agente humano puede ayudarte escribiendo al WhatsApp: https://wa.me/18094400062"

  /** The key used when the request names no session. */
  const DefaultSession: string := "default"

  /** The message is missing or empty (`!message`). */
  predicate EmptyMessage(message: Option<string>)
  {
    message.None? || message.value == ""
  }

  /** `sessionId || "default"`: a missing or empty id falls back to the
      shared default session. */
  function SessionKey(sessionId: Option<string>): (sid: string)
    ensures sid != ""
    ensures sid == DefaultSession <==>
      sessionId.None? || sessionId.value == "" || sessionId.value == DefaultSession
    ensures sid != DefaultSession ==> sessionId == Some(sid)
  {
    if sessionId.Some? && sessionId.value != "" then sessionId.value else DefaultSession
  }

  /** `s.slice(-n)` for a non-negative `n`: the last `n` elements, or all of
      `s` when `n` is zero (`-0` is `0`) or at least `|s|`. */
  function SliceLast<T>(s: seq<T>, n: nat): (r: seq<T>)
    ensures |r| == (if 0 < n < |s| then n else |s|)
    ensures forall i :: 0 <= i < |r| ==> r[i] == s[|s| - |r| + i]
  {
    if n == 0 || n >= |s| then s else s[|s| - n..]
  }

  /** The transcript a session holds, or the empty one it starts with. */
  function Lookup(sessions: map<string, seq<Turn>>, sid: string): seq<Turn>
  {
    if sid in sessions then sessions[sid] else []
  }

  /** The transcript after the user's turn is pushed and the history is cut
      back to `maxHistory` entries. */
  function StoreUser(t: seq<Turn>, message: string, maxHistory: nat): seq<Turn>
  {
    var pushed := t + [Turn(User, message)];
    if |pushed| > maxHistory then SliceLast(pushed, maxHistory) else pushed
  }

  /** The stored transcript is the last `min(|t| + 1, maxHistory)` entries of
      `t + [user turn]`, in order, and ends with the user's turn. With a zero
      bound nothing is cut, since `slice(-0)` keeps everything. */
  lemma StoreUserKeepsLatest(t: seq<Turn>, message: string, maxHistory: nat)
    ensures var r := StoreUser(t, message, maxHistory);
      (maxHistory > 0 ==>
        |r| == (if |t| + 1 <= maxHistory then |t| + 1 else maxHistory) &&
        r == (t + [Turn(User, message)])[|t| + 1 - |r|..] &&
        r[|r| - 1] == Turn(User, message)) &&
      (maxHistory == 0 ==> r == t + [Turn(User, message)])
  {
  }

  /** What happens after the transcript is stored: the catalog is fetched
      only on product intent (a fetch error is caught like any other), the
      message list is assembled and handed to the completion service. */
  function Complete(message: string, stored: seq<Turn>, systemPrompt: string,
                    fetch: Fetch, complete: seq<Turn> -> Completion): Completion
  {
    var wants := WantsProducts(message);
    if wants && fetch.FetchError? then Fail
    else
      var products := if wants then fetch.items else [];
      complete(Assemble(systemPrompt, CatalogContext(wants, products), stored))
  }

  /** One turn of the handler: the response and the session store afterwards. */
  function ChatTurn(sessions: map<string, seq<Turn>>, maxHistory: nat, systemPrompt: string,
                    message: Option<string>, sessionId: Option<string>,
                    fetch: Fetch, complete: seq<Turn> -> Completion): (Response, map<string, seq<Turn>>)
  {
    if EmptyMessage(message) then (BadRequest(EmptyMessageError), sessions)
    else
      var sid := SessionKey(sessionId);
      var stored := StoreUser(Lookup(sessions, sid), message.value, maxHistory);
      match Complete(message.value, stored, systemPrompt, fetch, complete)
      case Ok(reply) => (Success(reply), sessions[sid := stored + [Turn(Assistant, reply)]])
      case Fail => (Fallback(FallbackReply), sessions[sid := stored])
  }

  /** Every stored transcript is made of user and assistant turns and holds
      at most `maxHistory + 1` of them (the cut happens before the assistant's
      turn is pushed). */
  predicate StoreInvariant(sessions: map<string, seq<Turn>>, maxHistory: nat)
  {
    forall sid :: sid in sessions ==>
      Conversational(sessions[sid]) && |sessions[sid]| <= maxHistory + 1
  }

  /** A missing or empty message gets the 400 response and changes nothing. */
  lemma EmptyMessageRejected(sessions: map<string, seq<Turn>>, maxHistory: nat, systemPrompt: string,
                             message: Option<string>, sessionId: Option<string>,
                             fetch: Fetch, complete: seq<Turn> -> Completion)
    ensures var (response, after) := ChatTurn(sessions, maxHistory, systemPrompt, message, sessionId, fetch, complete);
      (response.BadRequest? <==> EmptyMessage(message)) &&
      (response.BadRequest? ==> response.error == EmptyMessageError && after == sessions)
  {
  }

  /** A turn creates the session on first use and leaves every other session
      as it was. */
  lemma TurnTouchesOnlyItsSession(sessions: map<string, seq<Turn>>, maxHistory: nat, systemPrompt: string,
                                  message: Option<string>, sessionId: Option<string>,
                                  fetch: Fetch, complete: seq<Turn> -> Completion)
    requires !EmptyMessage(message)
    ensures var after := ChatTurn(sessions, maxHistory, systemPrompt, message, sessionId, fetch, complete).1;
      after.Keys == sessions.Keys + {SessionKey(sessionId)} &&
      forall k :: k in sessions && k != SessionKey(sessionId) ==> after[k] == sessions[k]
  {
  }

  /** After a successful completion the session holds the trimmed transcript
      followed by the assistant's reply: at most `maxHistory + 1` turns, the
      last two being the user's message and the reply. */
  lemma SuccessfulTurn(sessions: map<string, seq<Turn>>, maxHistory: nat, systemPrompt: string,
                       message: string, sessionId: Option<string>,
                       fetch: Fetch, complete: seq<Turn> -> Completion, reply: string)
    requires maxHistory > 0 && message != ""
    requires Complete(message, StoreUser(Lookup(sessions, SessionKey(sessionId)), message, maxHistory),
                      systemPrompt, fetch, complete) == Ok(reply)
    ensures var (response, after) := ChatTurn(sessions, maxHistory, systemPrompt, Some(message), sessionId, fetch, complete);
      var t := after[SessionKey(sessionId)];
      response == Success(reply) &&
      t == StoreUser(Lookup(sessions, SessionKey(sessionId)), message, maxHistory) + [Turn(Assistant, reply)] &&
      2 <= |t| <= maxHistory + 1 &&
      t[|t| - 2..] == [Turn(User, message), Turn(Assistant, reply)]
  {
  }

  /** When the catalog or the completion fails, the reply is the fixed
      WhatsApp text and the user's turn stays stored, last, with no reply
      after it: nothing is rolled back. */
  lemma FailedTurn(sessions: map<string, seq<Turn>>, maxHistory: nat, systemPrompt: string,
                   message: string, sessionId: Option<string>,
                   fetch: Fetch, complete: seq<Turn> -> Completion)
    requires maxHistory > 0 && message != ""
    requires Complete(message, StoreUser(Lookup(sessions, SessionKey(sessionId)), message, maxHistory),
                      systemPrompt, fetch, complete) == Fail
    ensures var (response, after) := ChatTurn(sessions, maxHistory, systemPrompt, Some(message), sessionId, fetch, complete);
      var t := after[SessionKey(sessionId)];
      response == Fallback(FallbackReply) &&
      t == StoreUser(Lookup(sessions, SessionKey(sessionId)), message, maxHistory) &&
      1 <= |t| <= maxHistory &&
      t[|t| - 1] == Turn(User, message)
  {
  }

  /** A session seen for the first time starts empty: a successful first turn
      leaves it holding the user's message and the reply, a failed one only the
      user's message. */
  lemma FirstTurnOfSession(sessions: map<string, seq<Turn>>, maxHistory: nat, systemPrompt: string,
                           message: string, sessionId: Option<string>,
                           fetch: Fetch, complete: seq<Turn> -> Completion)
    requires maxHistory > 0 && message != ""
    requires SessionKey(sessionId) !in sessions
    ensures var (response, after) := ChatTurn(sessions, maxHistory, systemPrompt, Some(message), sessionId, fetch, complete);
      after[SessionKey(sessionId)] ==
        if response.Success? then [Turn(User, message), Turn(Assistant, response.reply)]
        else [Turn(User, message)]
  {
  }

  /** A catalog error fails the turn exactly when the message has product
      intent; without it the catalog is not consulted at all. */
  lemma CatalogOnlyOnIntent(message: string, stored: seq<Turn>, systemPrompt: string,
                            fetch: Fetch, complete: seq<Turn> -> Completion)
    ensures !WantsProducts(message) ==>
      Complete(message, stored, systemPrompt, fetch, complete) ==
      Complete(message, stored, systemPrompt, FetchError, complete)
    ensures WantsProducts(message) ==>
      Complete(message, stored, systemPrompt, FetchError, complete) == Fail
  {
  }

  /** The message list handed to the completion service: the system turn with
      the base prompt and the context, then the stored transcript verbatim;
      the only system turn is the first one. */
  lemma MessagesSent(message: string, stored: seq<Turn>, systemPrompt: string, products: seq<Product>)
    requires Conversational(stored)
    ensures var messages := Assemble(systemPrompt, CatalogContext(WantsProducts(message), products), stored);
      |messages| == 1 + |stored| &&
      messages[0] == Turn(System, systemPrompt + CatalogContext(WantsProducts(message), products)) &&
      messages[1..] == stored &&
      forall i :: 0 < i < |messages| ==> messages[i].role != System
  {
    SystemTurnOnlyFirst(systemPrompt, CatalogContext(WantsProducts(message), products), stored);
  }

  /** Pushing the user's turn and trimming keeps a transcript conversational. */
  lemma StoreUserConversational(t: seq<Turn>, message: string, maxHistory: nat)
    requires Conversational(t)
    ensures Conversational(StoreUser(t, message, maxHistory))
  {
    var pushed := t + [Turn(User, message)];
    var stored := StoreUser(t, message, maxHistory);
    assert Conversational(pushed) by {
      forall i | 0 <= i < |pushed| ensures pushed[i].role != System {
        if i < |t| { assert pushed[i] == t[i]; }
      }
    }
    assert stored == pushed[|pushed| - |stored|..];
    forall i | 0 <= i < |stored| ensures stored[i].role != System {
      assert stored[i] == pushed[|pushed| - |stored| + i];
    }
  }

  /** Appending a non-system turn keeps a transcript conversational. */
  lemma AppendConversational(t: seq<Turn>, turn: Turn)
    requires Conversational(t) && turn.role != System
    ensures Conversational(t + [turn])
  {
    forall i | 0 <= i < |t| + 1 ensures (t + [turn])[i].role != System {
      if i < |t| { assert (t + [turn])[i] == t[i]; }
    }
  }

  /** Every turn keeps the store invariant. */
  lemma TurnKeepsInvariant(sessions: map<string, seq<Turn>>, maxHistory: nat, systemPrompt: string,
                           message: Option<string>, sessionId: Option<string>,
                           fetch: Fetch, complete: seq<Turn> -> Completion)
    requires maxHistory > 0 && StoreInvariant(sessions, maxHistory)
    ensures StoreInvariant(ChatTurn(sessions, maxHistory, systemPrompt, message, sessionId, fetch, complete).1, maxHistory)
  {
    if !EmptyMessage(message) {
      var sid := SessionKey(sessionId);
      var t := Lookup(sessions, sid);
      var stored := StoreUser(t, message.value, maxHistory);
      StoreUserConversational(t, message.value, maxHistory);
      var after := ChatTurn(sessions, maxHistory, systemPrompt, message, sessionId, fetch, complete).1;
      match Complete(message.value, stored, systemPrompt, fetch, complete)
      case Ok(reply) =>
        AppendConversational(stored, Turn(Assistant, reply));
        assert after == sessions[sid := stored + [Turn(Assistant, reply)]];
      case Fail =>
        assert after == sessions[sid := stored];
    }
  }

  /** Once a session is full, a successful turn leaves it at exactly
      `maxHistory + 1` turns: `maxHistory` trimmed entries plus the reply. */
  lemma FullSessionStaysAtBound(sessions: map<string, seq<Turn>>, maxHistory: nat, systemPrompt: string,
                                message: string, sessionId: Option<string>,
                                fetch: Fetch, complete: seq<Turn> -> Completion, reply: string)
    requires maxHistory > 0 && message != ""
    requires |Lookup(sessions, SessionKey(sessionId))| >= maxHistory
    requires Complete(message, StoreUser(Lookup(sessions, SessionKey(sessionId)), message, maxHistory),
                      systemPrompt, fetch, complete) == Ok(reply)
    ensures |ChatTurn(sessions, maxHistory, systemPrompt, Some(message), sessionId, fetch, complete).1[SessionKey(sessionId)]|
      == maxHistory + 1
  {
  }

  /** The process-wide session store: session id to transcript. */
  class SessionStore {
    var sessions: map<string, seq<Turn>>
    const maxHistory: nat
    const systemPrompt: string

    ghost predicate Valid()
      reads this
    {
      maxHistory > 0 && StoreInvariant(sessions, maxHistory)
    }

    constructor (maxHistory: nat, systemPrompt: string)
      requires maxHistory > 0
      ensures Valid() && sessions == map[]
      ensures this.maxHistory == maxHistory && this.systemPrompt == systemPrompt
    {
      this.maxHistory := maxHistory;
      this.systemPrompt := systemPrompt;
      sessions := map[];
    }

    /** Creates the session on first use, pushes the user's turn and cuts the
        transcript back to its last `maxHistory` entries. */
    method StoreUserTurn(sid: string, text: string)
      modifies this
      ensures sessions == old(sessions)[sid := StoreUser(Lookup(old(sessions), sid), text, maxHistory)]
    {
      if sid !in sessions {
        sessions := sessions[sid := []];
      }
      ghost var before := Lookup(old(sessions), sid);
      assert sessions[sid] == before;
      var pushed := sessions[sid] + [Turn(User, text)];
      sessions := sessions[sid := pushed];
      if |pushed| > maxHistory {
        sessions := sessions[sid := SliceLast(pushed, maxHistory)];
      }
      assert sessions[sid] == StoreUser(before, text, maxHistory);
      assert sessions == old(sessions)[sid := sessions[sid]];
    }

    /** Pushes the assistant's reply onto the session's transcript, untrimmed. */
    method StoreAssistantTurn(sid: string, reply: string)
      requires sid in sessions
      modifies this
      ensures sessions == old(sessions)[sid := old(sessions)[sid] + [Turn(Assistant, reply)]]
    {
      sessions := sessions[sid := sessions[sid] + [Turn(Assistant, reply)]];
    }

    /** Everything between storing the user's turn and the outcome: the
        catalog is fetched only on product intent (an error ends the turn), the
        message list is assembled and handed to the completion service. */
    method Converse(text: string, stored: seq<Turn>, fetch: Fetch,
                    complete: seq<Turn> -> Completion) returns (outcome: Completion)
      ensures outcome == Complete(text, stored, systemPrompt, fetch, complete)
    {
      var context := "";
      var wants := WantsProducts(text);
      if wants {
        match fetch
        case FetchError =>
          return Fail;
        case Products(products) =>
          context := CatalogContext(true, products);
      }
      var messages := Assemble(systemPrompt, context, stored);
      outcome := complete(messages);
    }

    /** Handles one request to `/chat`, step by step as the handler does. */
    method HandleChat(message: Option<string>, sessionId: Option<string>,
                      fetch: Fetch, complete: seq<Turn> -> Completion) returns (response: Response)
      requires Valid()
      modifies this
      ensures Valid()
      ensures (response, sessions) ==
        ChatTurn(old(sessions), maxHistory, systemPrompt, message, sessionId, fetch, complete)
    {
      TurnKeepsInvariant(sessions, maxHistory, systemPrompt, message, sessionId, fetch, complete);
      if EmptyMessage(message) {
        return BadRequest(EmptyMessageError);
      }
      var text := message.value;
      var sid := SessionKey(sessionId);
      StoreUserTurn(sid, text);
      var stored := sessions[sid];
      var outcome := Converse(text, stored, fetch, complete);
      match outcome
      case Fail =>
        response := Fallback(FallbackReply);
      case Ok(reply) =>
        StoreAssistantTurn(sid, reply);
        response := Success(reply);
        assert sessions == old(sessions)[sid := stored + [Turn(Assistant, reply)]];
    }
  }
}

/** Turns of a conversation and the message list the chat handler sends to the
    completion service (server.js lines 38, 44, 69-72 and 84). */
module Prompt {

  /** The role tag of a message. */
  datatype Role = System | User | Assistant

  /** One message: `{ role, content }`. */
  datatype Turn = Turn(role: Role, content: string)

  /** A stored transcript holds only user and assistant turns; the system turn
      is rebuilt for every request and never stored. */
  predicate Conversational(transcript: seq<Turn>)
  {
    forall i :: 0 <= i < |transcript| ==> transcript[i].role != System
  }

  /** The message list for one request: the system turn carrying the base
      prompt followed by the request's context, then the transcript as stored. */
  function Assemble(systemPrompt: string, context: string, transcript: seq<Turn>): (messages: seq<Turn>)
    ensures |messages| == 1 + |transcript|
    ensures messages[0].role == System && messages[0].content == systemPrompt + context
    ensures messages[1..] == transcript
  {
    [Turn(System, systemPrompt + context)] + transcript
  }

  /** Over a stored transcript, the assembled list has exactly one system turn,
      and it comes first. */
  lemma SystemTurnOnlyFirst(systemPrompt: string, context: string, transcript: seq<Turn>)
    requires Conversational(transcript)
    ensures forall i :: 0 <= i < 1 + |transcript| ==>
      (Assemble(systemPrompt, context, transcript)[i].role == System <==> i == 0)
  {
    var messages := Assemble(systemPrompt, context, transcript);
    forall i | 0 < i < 1 + |transcript| ensures messages[i].role != System {
      assert messages[i] == messages[1..][i - 1] == transcript[i - 1];
    }
  }
}

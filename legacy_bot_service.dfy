/** The older, single-class Telegram bot: it keeps each user's last ten chat
    turns itself and uses the same caption truncation and message splitting
    as the reply formatter (the two copies are identical, so the model
    defines them once, in ResponseFormatting). */
module LegacyBot {
  import opened Wrappers
  import opened Strings
  import opened AgentDtos

  /** The reply sent when handling a message fails. */
  const ProcessingError: string :=
    "\U{274C} I apologize, but I encountered "
    + "an error while processing your "
    + "message. "
    + "Please try again or contact "
    + "support if the issue persists."

  const ClearedReply: string :=
    "\U{1F5D1}\U{FE0F} Conversation history cleared! "
    + "You can start fresh."

  /** The history stored after a handled turn: the last ten of the old
      history followed by the user's message and the assistant's reply. */
  function AfterTurn(history: seq<ChatMessage>, message: string, reply: string): seq<ChatMessage> {
    PySliceFrom(history + [UserMessage(message), AssistantMessage(reply)], -10)
  }

  /** At most ten turns are kept; they are the most recent ones, in order,
      and the last two are this turn's question and answer. */
  lemma AfterTurnShape(history: seq<ChatMessage>, message: string, reply: string)
    ensures var h := AfterTurn(history, message, reply);
      var full := history + [UserMessage(message), AssistantMessage(reply)];
      |h| == (if |full| < 10 then |full| else 10)
      && h == full[|full| - |h|..]
      && h[|h| - 2] == UserMessage(message) && h[|h| - 1] == AssistantMessage(reply)
  {
    LastK(history + [UserMessage(message), AssistantMessage(reply)], 10);
  }

  class TelegramBotService {
    var userConversations: map<string, seq<ChatMessage>>

    constructor()
      ensures userConversations == map[]
    {
      userConversations := map[];
    }

    function History(userId: string): seq<ChatMessage>
      reads this
    {
      if userId in userConversations then userConversations[userId] else []
    }

    /** _handle_clear: drops the user's history, if any, and confirms. */
    method HandleClear(userId: string) returns (reply: string)
      modifies this
      ensures userConversations == old(userConversations) - {userId}
      ensures forall u :: u != userId ==> History(u) == old(History(u))
      ensures History(userId) == []
      ensures reply == ClearedReply
    {
      if userId in userConversations {
        userConversations := userConversations - {userId};
      }
      reply := ClearedReply;
    }

    /** _handle_message: the agent (an oracle taking the message, the chat id
        and the history) is asked with the user's stored history, or [] for a
        new user; on success the turn is recorded and the answer sent, on
        failure nothing is recorded and the apology is sent. */
    method HandleMessage(userId: string, messageText: string,
                         agent: (string, string, seq<ChatMessage>) -> Outcome<string>)
      returns (reply: string)
      modifies this
      ensures var answer := agent(messageText, userId, old(History(userId)));
        if answer.Ok? then
          userConversations == old(userConversations)[userId := AfterTurn(old(History(userId)), messageText, answer.value)]
          && reply == answer.value
          && forall u :: u != userId ==> History(u) == old(History(u))
        else
          userConversations == old(userConversations) && reply == ProcessingError
    {
      var conversationHistory := if userId in userConversations then userConversations[userId] else [];
      var agentResponse := agent(messageText, userId, conversationHistory);
      if agentResponse.Raised? {
        return ProcessingError;
      }
      ghost var before := conversationHistory;
      conversationHistory := conversationHistory + [UserMessage(messageText)];
      conversationHistory := conversationHistory + [AssistantMessage(agentResponse.value)];
      assert conversationHistory == before + [UserMessage(messageText), AssistantMessage(agentResponse.value)];
      userConversations := userConversations[userId := PySliceFrom(conversationHistory, -10)];
      reply := agentResponse.value;
    }
  }
}

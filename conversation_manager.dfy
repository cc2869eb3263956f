/** The Telegram bot's per-user chat history: a dictionary from user id to the
    list of that user's messages, cut back to the most recent ones after every
    addition. */
module ConversationManagement {
  import opened Wrappers
  import opened Strings
  import opened AgentDtos

  /** The history kept after appending: when it is longer than `max`, the
      slice `h[-max:]`. For max >= 1 that is the last `max` messages; for
      max == 0 the slice `h[-0:]` is the whole list, so nothing is dropped. */
  function Trimmed(h: seq<ChatMessage>, max: int): seq<ChatMessage> {
    if |h| > max then PySliceFrom(h, -max) else h
  }

  /** Trimming keeps a suffix of the history: the most recent messages, in order. */
  lemma TrimmedIsSuffix(h: seq<ChatMessage>, max: int)
    ensures |Trimmed(h, max)| <= |h|
    ensures Trimmed(h, max) == h[|h| - |Trimmed(h, max)|..]
  {
  }

  /** For a positive limit, the history never exceeds it, and it is cut only
      when it is longer than the limit, to exactly the limit. */
  lemma TrimmedLength(h: seq<ChatMessage>, max: int)
    requires max >= 1
    ensures |Trimmed(h, max)| == if |h| > max then max else |h|
  {
  }

  /** A limit of zero keeps everything. */
  lemma TrimmedZeroKeepsAll(h: seq<ChatMessage>)
    ensures Trimmed(h, 0) == h
  {
  }

  /** After appending, the history ends with the new message (for any
      non-negative limit). */
  lemma TrimmedEndsWithNew(h: seq<ChatMessage>, m: ChatMessage, max: int)
    requires max >= 0
    ensures |Trimmed(h + [m], max)| >= 1
    ensures Trimmed(h + [m], max)[|Trimmed(h + [m], max)| - 1] == m
  {
    TrimmedIsSuffix(h + [m], max);
    if |h + [m]| > max && max >= 1 {
      TrimmedLength(h + [m], max);
    }
  }

  /** The history after one addition ends with the new message, and a
      positive limit bounds its length. */
  lemma AppendedHistory(h: seq<ChatMessage>, m: ChatMessage, max: int)
    ensures var t := Trimmed(h + [m], max);
      (max >= 0 ==> |t| >= 1 && t[|t| - 1] == m) && (max >= 1 ==> |t| <= max)
  {
    if max >= 0 {
      TrimmedEndsWithNew(h, m, max);
    }
    if max >= 1 {
      TrimmedLength(h + [m], max);
    }
  }

  class ConversationManager {
    var conversations: map<string, seq<ChatMessage>>
    const maxConversationLength: int

    constructor(maxConversationLength: int)
      ensures conversations == map[]
      ensures this.maxConversationLength == maxConversationLength
    {
      conversations := map[];
      this.maxConversationLength := maxConversationLength;
    }

    /** The stored history of a user; [] for a user never seen. */
    function History(userId: string): seq<ChatMessage>
      reads this
    {
      if userId in conversations then conversations[userId] else []
    }

    method GetConversationHistory(userId: string) returns (h: seq<ChatMessage>)
      ensures userId !in conversations ==> h == []
      ensures userId in conversations ==> h == conversations[userId]
    {
      h := if userId in conversations then conversations[userId] else [];
    }

    /** Appends a message to the user's history (creating it if absent) and
        trims the result. */
    method AddMessage(userId: string, message: ChatMessage)
      modifies this
      ensures conversations == old(conversations)[userId := Trimmed(old(History(userId)) + [message], maxConversationLength)]
      ensures forall u :: u != userId ==> History(u) == old(History(u))
    {
      var h := if userId in conversations then conversations[userId] else [];
      h := h + [message];
      if |h| > maxConversationLength {
        h := PySliceFrom(h, -maxConversationLength);
      }
      conversations := conversations[userId := h];
    }

    method AddUserMessage(userId: string, content: string)
      modifies this
      ensures conversations == old(conversations)[userId := Trimmed(old(History(userId)) + [UserMessage(content)], maxConversationLength)]
    {
      AddMessage(userId, UserMessage(content));
    }

    method AddAssistantMessage(userId: string, content: string)
      modifies this
      ensures conversations == old(conversations)[userId := Trimmed(old(History(userId)) + [AssistantMessage(content)], maxConversationLength)]
    {
      AddMessage(userId, AssistantMessage(content));
    }

    /** Forgets the user's history; reports whether there was one. */
    method ClearConversation(userId: string) returns (found: bool)
      modifies this
      ensures found <==> userId in old(conversations)
      ensures conversations == old(conversations) - {userId}
      ensures History(userId) == []
    {
      if userId in conversations {
        conversations := conversations - {userId};
        found := true;
      } else {
        found := false;
      }
    }

    /** The users that have a stored history, each once. */
    method GetActiveUsers() returns (users: seq<string>)
      ensures forall u :: u in users <==> u in conversations
      ensures forall i, j :: 0 <= i < j < |users| ==> users[i] != users[j]
    {
      users := [];
      var remaining := conversations.Keys;
      while remaining != {}
        invariant remaining <= conversations.Keys
        invariant forall u :: u in users <==> u in conversations.Keys - remaining
        invariant forall i, j :: 0 <= i < j < |users| ==> users[i] != users[j]
        decreases remaining
      {
        var u :| u in remaining;
        forall i | 0 <= i < |users|
          ensures users[i] != u
        {
          assert users[i] in users;
        }
        users := users + [u];
        remaining := remaining - {u};
      }
    }

    method GetConversationCount(userId: string) returns (n: nat)
      ensures n == |History(userId)|
      ensures userId !in conversations ==> n == 0
    {
      n := if userId in conversations then |conversations[userId]| else 0;
    }
  }
}

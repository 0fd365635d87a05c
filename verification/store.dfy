/** The chat-history table, seen as an append-only log of records in the
    order they were written. */
module Store {
  import opened PyStr

  /** One item of the table: `from` is 0 for the user, 1 for the bot. */
  datatype Record = Record(updateId: int, chatId: int, message: string, from: int, gifUrl: string)

  /** The messages of one chat, oldest first. */
  function ChatMessages(log: seq<Record>, chatId: int): (msgs: seq<string>)
    ensures |msgs| <= |log|
    decreases |log|
  {
    if |log| == 0 then []
    else
      var last := log[|log| - 1];
      ChatMessages(log[..|log| - 1], chatId) + (if last.chatId == chatId then [last.message] else [])
  }

  /** A query keyed on the chat id, newest first, with a row limit: the
      newest `limit` messages of the chat, or all of them if there are
      fewer. */
  function Query(log: seq<Record>, chatId: int, limit: nat): (items: seq<string>)
    ensures |items| == Min(limit, |ChatMessages(log, chatId)|)
    ensures forall i :: 0 <= i < |items| ==>
      items[i] == ChatMessages(log, chatId)[|ChatMessages(log, chatId)| - 1 - i]
  {
    var msgs := ChatMessages(log, chatId);
    Reverse(msgs[|msgs| - Min(limit, |msgs|)..])
  }

  /** Put back in chronological order, the query result is the newest
      stretch of the chat: a suffix of its messages. */
  lemma QueryChronological(log: seq<Record>, chatId: int, limit: nat)
    ensures IsSuffix(Reverse(Query(log, chatId, limit)), ChatMessages(log, chatId))
    ensures |Query(log, chatId, limit)| <= limit
  {
    var msgs := ChatMessages(log, chatId);
    ReverseInvolutive(msgs[|msgs| - Min(limit, |msgs|)..]);
  }

  /** Appending a record of another chat leaves a chat's messages alone;
      appending one of the same chat adds its message at the end. */
  lemma ChatMessagesAppend(log: seq<Record>, rec: Record, chatId: int)
    ensures ChatMessages(log + [rec], chatId)
      == ChatMessages(log, chatId) + (if rec.chatId == chatId then [rec.message] else [])
  {
    assert (log + [rec])[..|log|] == log;
  }
}

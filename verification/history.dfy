/** The history window the handler builds before generating a reply: the
    newest stored messages of the chat, in chronological order, joined and
    terminated with the end-of-sequence token, cut to a character budget
    from the front. */
module History {
  import opened PyStr
  import opened Store

  /** What `history_texts` holds once the history block has run: a string,
      or, when the query returned no items, the empty list the block left
      behind. */
  datatype HistoryValue = Text(text: string) | EmptyList

  /** `history_texts + message_text`: a string concatenation, or the
      `TypeError` that adding a string to a list raises. */
  datatype PromptResult = Prompt(text: string) | TypeError

  /** The newest item, with its separator, ends the chronological join. */
  lemma NewestEndsJoin(items: seq<string>, eos: string)
    requires |items| > 0
    ensures IsSuffix(items[0] + eos, Join(Reverse(items), eos) + eos)
  {
    var chrono := Reverse(items);
    var j := Join(chrono, eos);
    var full := j + eos;
    JoinEndsWithLast(chrono, eos);
    assert full[|full| - |items[0] + eos|..] == j[|j| - |items[0]|..] + eos;
  }

  /** Reverse the newest-first `items`, join them with `eos`, append one
      more `eos` and keep the last `maxLen` characters. */
  function Window(items: seq<string>, eos: string, maxLen: nat): (w: string)
    requires |items| > 0
    ensures IsSuffix(w, Join(Reverse(items), eos) + eos)
    ensures maxLen > 0 ==> |w| == Min(maxLen, |Join(Reverse(items), eos) + eos|)
    ensures maxLen > 0 && |items[0]| + |eos| <= maxLen ==> IsSuffix(items[0] + eos, w)
    ensures maxLen == 0 ==> w == Join(Reverse(items), eos) + eos
  {
    var full := Join(Reverse(items), eos) + eos;
    var w := TakeLast(full, maxLen);
    NewestEndsJoin(items, eos);
    assert maxLen > 0 && |items[0]| + |eos| <= maxLen ==> IsSuffix(items[0] + eos, w) by {
      if maxLen > 0 && |items[0]| + |eos| <= maxLen {
        SuffixOfSuffix(items[0] + eos, w, full);
      }
    }
    w
  }

  /** Lines 192-208 as written: no query when `turns` is zero; otherwise up
      to `turns * 2` newest items, and a window only when there are any. */
  function HistoryAsWritten(turns: nat, log: seq<Record>, chatId: int, eos: string, maxLen: nat): (h: HistoryValue)
  {
    if turns == 0 then Text("")
    else
      var items := Query(log, chatId, turns * 2);
      if |items| > 0 then Text(Window(items, eos, maxLen)) else EmptyList
  }

  /** Line 226 as written. */
  function PromptAsWritten(h: HistoryValue, text: string): (p: PromptResult)
  {
    match h
    case Text(s) => Prompt(s + text)
    case EmptyList => TypeError
  }

  /** The history text with an empty query result read as empty text. It
      is empty when the feature is off or the chat has no messages yet,
      never longer than a positive budget, a suffix of the newest
      `turns * 2` messages of the chat joined in chronological order, and
      it keeps the newest message whole whenever that fits the budget.
      `HistoryTextIsLastChars` gives its exact value. */
  function HistoryText(turns: nat, log: seq<Record>, chatId: int, eos: string, maxLen: nat): (h: string)
    ensures turns == 0 || ChatMessages(log, chatId) == [] ==> h == ""
    ensures maxLen > 0 ==> |h| <= maxLen
    ensures var msgs := ChatMessages(log, chatId);
      turns > 0 && msgs != [] ==>
        IsSuffix(h, Join(msgs[|msgs| - Min(turns * 2, |msgs|)..], eos) + eos)
    ensures var msgs := ChatMessages(log, chatId);
      turns > 0 && msgs != [] && 0 < |msgs[|msgs| - 1]| + |eos| <= maxLen ==>
        IsSuffix(msgs[|msgs| - 1] + eos, h)
  {
    if turns == 0 then ""
    else
      var items := Query(log, chatId, turns * 2);
      QueryChronological(log, chatId, turns * 2);
      if |items| > 0 then Window(items, eos, maxLen) else ""
  }

  /** With the feature on and some stored message, the history is exactly
      the last `maxLen` characters (all of them when `maxLen` is 0) of the
      newest `turns * 2` messages of the chat, joined in chronological order
      and terminated with `eos`. */
  lemma HistoryTextIsLastChars(turns: nat, log: seq<Record>, chatId: int, eos: string, maxLen: nat)
    requires turns > 0 && ChatMessages(log, chatId) != []
    ensures var msgs := ChatMessages(log, chatId);
      var full := Join(msgs[|msgs| - Min(turns * 2, |msgs|)..], eos) + eos;
      && HistoryText(turns, log, chatId, eos, maxLen) == TakeLast(full, maxLen)
      && (maxLen > 0 ==> |HistoryText(turns, log, chatId, eos, maxLen)| == Min(maxLen, |full|))
      && (maxLen == 0 ==> HistoryText(turns, log, chatId, eos, maxLen) == full)
  {
    var msgs := ChatMessages(log, chatId);
    var items := Query(log, chatId, turns * 2);
    QueryChronological(log, chatId, turns * 2);
    assert Reverse(items) == msgs[|msgs| - Min(turns * 2, |msgs|)..];
  }

  /** The code as written is left holding an empty list exactly when the
      feature is on and the chat has no stored message. */
  lemma HistoryAsWrittenEmptyIff(turns: nat, log: seq<Record>, chatId: int, eos: string, maxLen: nat)
    ensures HistoryAsWritten(turns, log, chatId, eos, maxLen) == EmptyList
      <==> turns > 0 && ChatMessages(log, chatId) == []
  {
  }

  /** In every other case the code as written gives the corrected history. */
  lemma HistoryAsWrittenAgrees(turns: nat, log: seq<Record>, chatId: int, eos: string, maxLen: nat)
    ensures HistoryAsWritten(turns, log, chatId, eos, maxLen) != EmptyList ==>
      HistoryAsWritten(turns, log, chatId, eos, maxLen) == Text(HistoryText(turns, log, chatId, eos, maxLen))
  {
  }

  /** With history turned on, the first message of a chat makes the code
      as written add a string to an empty list, while the corrected
      history gives the message itself as the prompt. */
  lemma FirstMessageCrashesAsWritten(turns: nat, log: seq<Record>, chatId: int, eos: string, maxLen: nat, text: string)
    requires turns > 0 && ChatMessages(log, chatId) == []
    ensures PromptAsWritten(HistoryAsWritten(turns, log, chatId, eos, maxLen), text) == TypeError
    ensures HistoryText(turns, log, chatId, eos, maxLen) + text == text
  {
  }
}

/** One run of `handle_record`: the steps it takes for one inbound chat
    message, as a trace of abstract events, and the records it appends to
    the chat-history table. The neural networks, the random draw, the GIF
    lookup and the table are inputs; the outbound calls are events. */
module Handler {
  import opened PyStr
  import opened Store
  import opened History
  import opened Ranking
  import opened Media

  /** The fields of an update the handler reads: a text message's update
      id, chat id and text (lines 187-189). */
  datatype Inbound = Inbound(updateId: int, chatId: int, text: string)

  /** The module-level settings the handler consults, and the number of
      candidates `predict` asks for (line 133). */
  datatype Config = Config(
    historyTurns: nat,
    historyMaxLength: nat,
    eos: string,
    rankers: seq<RankerSpec>,
    numReturnSequences: nat)

  /** How the GIF lookup ended: it raised, or it returned a URL. */
  datatype GifLookup = LookupFailed | Found(url: string)

  /** What the outside world sees of a run. */
  datatype Event =
    | QueryHistory(chatId: int, limit: nat)
    | Put(record: Record)
    | SendTyping(chatId: int)
    | Generate(prompt: string)
    | RunRanker(index: nat)
    | SendText(chatId: int, text: string)
    | LookupGif(query: string)
    | SendGif(chatId: int, url: string)

  /** The events of a run and the table after it. */
  datatype TurnResult = TurnResult(trace: seq<Event>, log: seq<Record>)

  /** What the outside world supplies for one run: the draw, the
      generated candidates, each ranker's scores and the GIF lookup. */
  datatype External = External(draw: real, candidates: seq<string>, scores: seq<seq<real>>, gif: GifLookup)

  /** The generator returns `numReturnSequences` candidates (at least one)
      and, when ranking runs, every ranker scores every candidate. */
  predicate Fits(cfg: Config, ext: External) {
    && |ext.candidates| == cfg.numReturnSequences >= 1
    && (|ext.candidates| > 1 ==> |ext.scores| == |cfg.rankers| && WellShaped(ext.scores, |ext.candidates|))
  }

  /** The reply `predict` would return with the fresh-score step (line 165
      corrected): the only candidate, or else the first candidate whose
      combined ranker score is highest. */
  function Predict(rankers: seq<RankerSpec>, candidates: seq<string>, scores: seq<seq<real>>): (reply: string)
    requires |candidates| >= 1
    requires |candidates| > 1 ==> |scores| == |rankers| && WellShaped(scores, |candidates|)
    ensures |candidates| == 1 ==> reply == candidates[0]
    ensures |candidates| > 1 ==> exists k: nat :: IsFirstMax(Total(rankers, scores, |candidates|), k) && reply == candidates[k]
  {
    var k := Select(rankers, scores, |candidates|).index;
    candidates[k]
  }

  /** The user's text as stored: trimmed, with any tag still in it. */
  function UserRecord(msg: Inbound): Record {
    Record(msg.updateId, msg.chatId, Strip(msg.text), 0, "")
  }

  /** The prompt: the history of the chat before this message, followed by
      the (possibly cleaned) user text. */
  function PromptOf(cfg: Config, log: seq<Record>, msg: Inbound, draw: real): string {
    HistoryText(cfg.historyTurns, log, msg.chatId, cfg.eos, cfg.historyMaxLength)
      + DecideMedia(Strip(msg.text), draw).text
  }

  function ReplyOf(cfg: Config, ext: External): string
    requires Fits(cfg, ext)
  {
    Predict(cfg.rankers, ext.candidates, ext.scores)
  }

  /** The GIF URL stored with the reply: set once the lookup returned,
      even if sending the GIF then failed; empty otherwise. */
  function GifUrlOf(media: bool, gif: GifLookup): string {
    if media && gif.Found? then gif.url else ""
  }

  /** The bot's record for a reply (lines 237-244). */
  function BotRecordFor(msg: Inbound, reply: string, media: bool, gif: GifLookup): Record {
    Record(msg.updateId, msg.chatId, reply, 1, GifUrlOf(media, gif))
  }

  function BotRecord(cfg: Config, msg: Inbound, ext: External): Record
    requires Fits(cfg, ext)
  {
    BotRecordFor(msg, ReplyOf(cfg, ext), DecideMedia(Strip(msg.text), ext.draw).media, ext.gif)
  }

  /** The history query, when history is enabled. */
  function QueryEvents(cfg: Config, chatId: int): (es: seq<Event>)
    ensures forall e :: e in es ==> e.QueryHistory?
  {
    if cfg.historyTurns > 0 then [QueryHistory(chatId, cfg.historyTurns * 2)] else []
  }

  /** One event per ranker, in configuration order, when there is more
      than one candidate to rank. */
  function RankerEvents(cfg: Config, n: nat): (es: seq<Event>)
    ensures |es| == (if n > 1 then |cfg.rankers| else 0)
    ensures forall i :: 0 <= i < |es| ==> es[i] == RunRanker(i)
    ensures forall e :: e in es ==> e.RunRanker?
  {
    if n > 1 then seq(|cfg.rankers|, i requires 0 <= i < |cfg.rankers| => RunRanker(i)) else []
  }

  /** The GIF steps: none without media; the lookup alone when it raised
      (the exception is swallowed); the lookup and the send otherwise. */
  function GifEvents(media: bool, gif: GifLookup, reply: string, chatId: int): (es: seq<Event>)
    ensures forall e :: e in es ==> e.LookupGif? || e.SendGif?
  {
    if !media then []
    else match gif
      case LookupFailed => [LookupGif(reply)]
      case Found(url) => [LookupGif(reply), SendGif(chatId, url)]
  }

  /** The order of the steps of a run. */
  function Layout(query: seq<Event>, user: Record, chatId: int, prompt: string, ranking: seq<Event>,
                  reply: string, gifs: seq<Event>, bot: Record): seq<Event>
  {
    query + [Put(user), SendTyping(chatId), Generate(prompt)] + ranking + [SendText(chatId, reply)] + gifs + [Put(bot)]
  }

  /** Where each step of a run sits in its trace. */
  lemma LayoutPositions(query: seq<Event>, user: Record, chatId: int, prompt: string, ranking: seq<Event>,
                        reply: string, gifs: seq<Event>, bot: Record)
    ensures var t := Layout(query, user, chatId, prompt, ranking, reply, gifs, bot);
      var q := |query|;
      var s := q + 3 + |ranking|;
      && |t| == s + 1 + |gifs| + 1
      && t[..q] == query
      && t[q] == Put(user) && t[q + 1] == SendTyping(chatId) && t[q + 2] == Generate(prompt)
      && t[q + 3..s] == ranking
      && t[s] == SendText(chatId, reply)
      && t[s + 1..|t| - 1] == gifs
      && t[|t| - 1] == Put(bot)
  {
  }

  /** Lines 184-244 with the corrected history and ranking: query the
      history (when enabled), store the user record, send the typing
      indicator, generate and rank, send the reply, optionally look up and
      send a GIF with any failure swallowed, store the bot record. */
  function Handle(cfg: Config, log: seq<Record>, msg: Inbound, ext: External): (t: TurnResult)
    requires Fits(cfg, ext)
    ensures |t.log| == |log| + 2 && t.log == log + [t.log[|log|], t.log[|log| + 1]]
    ensures t.log[|log|].from == 0 && t.log[|log|].message == Strip(msg.text)
    ensures t.log[|log| + 1].from == 1 && t.log[|log| + 1].message in ext.candidates
    ensures t.log[|log| + 1].updateId == t.log[|log|].updateId == msg.updateId
    ensures t.log[|log| + 1].chatId == t.log[|log|].chatId == msg.chatId
    ensures |t.trace| > 0 && t.trace[|t.trace| - 1] == Put(t.log[|log| + 1])
  {
    var user := UserRecord(msg);
    var media := DecideMedia(Strip(msg.text), ext.draw).media;
    var reply := ReplyOf(cfg, ext);
    var bot := BotRecord(cfg, msg, ext);
    var trace := Layout(
      QueryEvents(cfg, msg.chatId), user, msg.chatId, PromptOf(cfg, log, msg, ext.draw),
      RankerEvents(cfg, |ext.candidates|), reply, GifEvents(media, ext.gif, reply, msg.chatId), bot);
    TurnResult(trace, log + [user, bot])
  }

  /** The trace of a run is its steps in order. */
  lemma HandleTrace(cfg: Config, log: seq<Record>, msg: Inbound, ext: External)
    requires Fits(cfg, ext)
    ensures Handle(cfg, log, msg, ext).trace == Layout(
      QueryEvents(cfg, msg.chatId), UserRecord(msg), msg.chatId, PromptOf(cfg, log, msg, ext.draw),
      RankerEvents(cfg, |ext.candidates|), ReplyOf(cfg, ext),
      GifEvents(DecideMedia(Strip(msg.text), ext.draw).media, ext.gif, ReplyOf(cfg, ext), msg.chatId),
      BotRecord(cfg, msg, ext))
  {
  }

  /** Event `a` happens strictly before event `b`. */
  predicate Precedes(trace: seq<Event>, a: Event, b: Event) {
    exists i, j :: 0 <= i < j < |trace| && trace[i] == a && trace[j] == b
  }

  /** The order any run follows, whatever its pieces. */
  lemma LayoutOrder(query: seq<Event>, user: Record, chatId: int, prompt: string, ranking: seq<Event>,
                    reply: string, gifs: seq<Event>, bot: Record)
    ensures var t := Layout(query, user, chatId, prompt, ranking, reply, gifs, bot);
      && (forall e :: e in query ==> Precedes(t, e, Put(user)))
      && Precedes(t, Put(user), SendTyping(chatId))
      && Precedes(t, SendTyping(chatId), Generate(prompt))
      && Precedes(t, Generate(prompt), SendText(chatId, reply))
      && Precedes(t, SendText(chatId, reply), Put(bot))
      && t[|t| - 1] == Put(bot)
  {
    var t := Layout(query, user, chatId, prompt, ranking, reply, gifs, bot);
    LayoutPositions(query, user, chatId, prompt, ranking, reply, gifs, bot);
    var q := |query|;
    var s := q + 3 + |ranking|;
    forall e | e in query
      ensures Precedes(t, e, Put(user))
    {
      var i :| 0 <= i < q && query[i] == e;
      assert t[..q][i] == e;
    }
    assert t[q] == Put(user) && t[q + 1] == SendTyping(chatId);
    assert t[q + 2] == Generate(prompt) && t[s] == SendText(chatId, reply);
  }

  /** The order of a run: the history query (if any) before the user
      record is stored, which is before the typing indicator, which is
      before generation, which is before the reply is sent, which is
      before the bot record is stored, the last event. So the history never
      contains the message being answered, and no bot record is stored
      before the reply has gone out. */
  lemma HandleOrder(cfg: Config, log: seq<Record>, msg: Inbound, ext: External)
    requires Fits(cfg, ext)
    ensures var t := Handle(cfg, log, msg, ext).trace;
      var prompt := PromptOf(cfg, log, msg, ext.draw);
      var reply := ReplyOf(cfg, ext);
      && (cfg.historyTurns > 0 ==> Precedes(t, QueryHistory(msg.chatId, cfg.historyTurns * 2), Put(UserRecord(msg))))
      && Precedes(t, Put(UserRecord(msg)), SendTyping(msg.chatId))
      && Precedes(t, SendTyping(msg.chatId), Generate(prompt))
      && Precedes(t, Generate(prompt), SendText(msg.chatId, reply))
      && Precedes(t, SendText(msg.chatId, reply), Put(BotRecord(cfg, msg, ext)))
      && t[|t| - 1] == Put(BotRecord(cfg, msg, ext))
  {
    HandleTrace(cfg, log, msg, ext);
    var reply := ReplyOf(cfg, ext);
    var media := DecideMedia(Strip(msg.text), ext.draw).media;
    var query := QueryEvents(cfg, msg.chatId);
    LayoutOrder(query, UserRecord(msg), msg.chatId, PromptOf(cfg, log, msg, ext.draw),
      RankerEvents(cfg, |ext.candidates|), reply, GifEvents(media, ext.gif, reply, msg.chatId),
      BotRecord(cfg, msg, ext));
    if cfg.historyTurns > 0 {
      assert QueryHistory(msg.chatId, cfg.historyTurns * 2) in query;
    }
  }

  /** Which events a run holds, whatever its pieces: only the given query,
      ranker and GIF events besides the fixed steps. */
  lemma LayoutMembers(query: seq<Event>, user: Record, chatId: int, prompt: string, ranking: seq<Event>,
                      reply: string, gifs: seq<Event>, bot: Record, e: Event)
    requires !e.Put? && !e.SendTyping? && !e.Generate? && !e.SendText?
    ensures e in Layout(query, user, chatId, prompt, ranking, reply, gifs, bot)
      <==> e in query || e in ranking || e in gifs
  {
  }

  /** A layout whose query, ranker and GIF pieces hold only events of
      their own kinds generates from one prompt only. */
  lemma LayoutGenerates(query: seq<Event>, user: Record, chatId: int, prompt: string, ranking: seq<Event>,
                        reply: string, gifs: seq<Event>, bot: Record, p: string)
    requires forall e :: e in query ==> e.QueryHistory?
    requires forall e :: e in ranking ==> e.RunRanker?
    requires forall e :: e in gifs ==> e.LookupGif? || e.SendGif?
    ensures Generate(p) in Layout(query, user, chatId, prompt, ranking, reply, gifs, bot) <==> p == prompt
  {
    var t := Layout(query, user, chatId, prompt, ranking, reply, gifs, bot);
    assert t == query + ([Put(user), SendTyping(chatId), Generate(prompt)] + ranking + [SendText(chatId, reply)] + gifs + [Put(bot)]);
  }

  /** The reply is generated from exactly one prompt: the history built
      from the table as it stood before this message was stored, followed
      by the user's stripped text with any GIF tag cut out. */
  lemma HandlePrompt(cfg: Config, log: seq<Record>, msg: Inbound, ext: External, p: string)
    requires Fits(cfg, ext)
    ensures Generate(p) in Handle(cfg, log, msg, ext).trace
      <==> p == HistoryText(cfg.historyTurns, log, msg.chatId, cfg.eos, cfg.historyMaxLength)
             + DecideMedia(Strip(msg.text), ext.draw).text
  {
    HandleTrace(cfg, log, msg, ext);
    var reply := ReplyOf(cfg, ext);
    var media := DecideMedia(Strip(msg.text), ext.draw).media;
    LayoutGenerates(QueryEvents(cfg, msg.chatId), UserRecord(msg), msg.chatId, PromptOf(cfg, log, msg, ext.draw),
      RankerEvents(cfg, |ext.candidates|), reply, GifEvents(media, ext.gif, reply, msg.chatId),
      BotRecord(cfg, msg, ext), p);
  }

  /** The history query happens exactly when history is enabled, with a
      limit of twice the configured number of turns. */
  lemma QueryIffEnabled(cfg: Config, log: seq<Record>, msg: Inbound, ext: External, limit: nat)
    requires Fits(cfg, ext)
    ensures QueryHistory(msg.chatId, limit) in Handle(cfg, log, msg, ext).trace
      <==> cfg.historyTurns > 0 && limit == cfg.historyTurns * 2
  {
    HandleTrace(cfg, log, msg, ext);
    var reply := ReplyOf(cfg, ext);
    var media := DecideMedia(Strip(msg.text), ext.draw).media;
    var query := QueryEvents(cfg, msg.chatId);
    var e := QueryHistory(msg.chatId, limit);
    LayoutMembers(query, UserRecord(msg), msg.chatId, PromptOf(cfg, log, msg, ext.draw),
      RankerEvents(cfg, |ext.candidates|), reply, GifEvents(media, ext.gif, reply, msg.chatId),
      BotRecord(cfg, msg, ext), e);
    assert e in query <==> cfg.historyTurns > 0 && limit == cfg.historyTurns * 2;
  }

  /** Ranker `i` runs exactly when there is more than one candidate and
      `i` is one of the configured rankers: a single candidate is answered
      without consulting any ranker. */
  lemma RankersIffSeveralCandidates(cfg: Config, log: seq<Record>, msg: Inbound, ext: External, i: nat)
    requires Fits(cfg, ext)
    ensures RunRanker(i) in Handle(cfg, log, msg, ext).trace
      <==> |ext.candidates| > 1 && i < |cfg.rankers|
  {
    HandleTrace(cfg, log, msg, ext);
    var reply := ReplyOf(cfg, ext);
    var media := DecideMedia(Strip(msg.text), ext.draw).media;
    var ranking := RankerEvents(cfg, |ext.candidates|);
    LayoutMembers(QueryEvents(cfg, msg.chatId), UserRecord(msg), msg.chatId, PromptOf(cfg, log, msg, ext.draw),
      ranking, reply, GifEvents(media, ext.gif, reply, msg.chatId),
      BotRecord(cfg, msg, ext), RunRanker(i));
    if |ext.candidates| > 1 && i < |cfg.rankers| {
      assert ranking[i] == RunRanker(i);
    }
  }

  /** The GIF steps: the lookup runs exactly when media was chosen, and
      the GIF is sent exactly when the lookup also returned a URL. */
  lemma HandleGifSteps(cfg: Config, log: seq<Record>, msg: Inbound, ext: External, url: string)
    requires Fits(cfg, ext)
    ensures var t := Handle(cfg, log, msg, ext).trace;
      var media := DecideMedia(Strip(msg.text), ext.draw).media;
      && (LookupGif(ReplyOf(cfg, ext)) in t <==> media)
      && (SendGif(msg.chatId, url) in t <==> media && ext.gif == Found(url))
  {
    HandleTrace(cfg, log, msg, ext);
    var reply := ReplyOf(cfg, ext);
    var media := DecideMedia(Strip(msg.text), ext.draw).media;
    var gifs := GifEvents(media, ext.gif, reply, msg.chatId);
    var query := QueryEvents(cfg, msg.chatId);
    var prompt := PromptOf(cfg, log, msg, ext.draw);
    var ranking := RankerEvents(cfg, |ext.candidates|);
    var bot := BotRecord(cfg, msg, ext);
    LayoutMembers(query, UserRecord(msg), msg.chatId, prompt, ranking, reply, gifs, bot, LookupGif(reply));
    LayoutMembers(query, UserRecord(msg), msg.chatId, prompt, ranking, reply, gifs, bot, SendGif(msg.chatId, url));
  }

  /** A failed GIF lookup is swallowed: the bot record is still stored, as
      the last step, with an empty URL; so it is when no GIF was wanted. */
  lemma HandleGifFailureSwallowed(cfg: Config, log: seq<Record>, msg: Inbound, ext: External)
    requires Fits(cfg, ext)
    requires ext.gif == LookupFailed || !DecideMedia(Strip(msg.text), ext.draw).media
    ensures var t := Handle(cfg, log, msg, ext);
      && t.log[|log| + 1].gifUrl == ""
      && t.log[|log| + 1].message == ReplyOf(cfg, ext)
      && t.trace[|t.trace| - 1] == Put(t.log[|log| + 1])
  {
  }

  // ---------------------------------------------------------------------
  // the table over many runs

  /** Record `i` is a user record followed by the bot record of the same
      update and chat. */
  predicate PairAt(log: seq<Record>, i: int) {
    0 <= i && i + 1 < |log|
    && log[i].from == 0 && log[i + 1].from == 1
    && log[i + 1].updateId == log[i].updateId
    && log[i + 1].chatId == log[i].chatId
  }

  /** The table holds whole turns: user and bot records in pairs. */
  predicate Paired(log: seq<Record>) {
    |log| % 2 == 0 && forall i :: 0 <= i < |log| && i % 2 == 0 ==> PairAt(log, i)
  }

  /** Appending a user record and the bot record of the same update and
      chat keeps the table paired. */
  lemma AppendTurnKeepsPaired(log: seq<Record>, user: Record, bot: Record)
    requires Paired(log)
    requires user.from == 0 && bot.from == 1 && bot.updateId == user.updateId && bot.chatId == user.chatId
    ensures Paired(log + [user, bot])
  {
    var next := log + [user, bot];
    forall i | 0 <= i < |next| && i % 2 == 0
      ensures PairAt(next, i)
    {
      if i < |log| {
        assert PairAt(log, i);
        assert i + 1 < |log|;
      } else {
        assert i == |log|;
      }
    }
  }

  /** A run appends one whole turn to the table and keeps what was there. */
  lemma HandleAppendsTurn(cfg: Config, log: seq<Record>, msg: Inbound, ext: External)
    requires Fits(cfg, ext)
    ensures var next := Handle(cfg, log, msg, ext).log;
      && |next| == |log| + 2
      && (forall i :: 0 <= i < |log| ==> next[i] == log[i])
      && (Paired(log) ==> Paired(next))
  {
    var t := Handle(cfg, log, msg, ext);
    if Paired(log) {
      AppendTurnKeepsPaired(log, t.log[|log|], t.log[|log| + 1]);
    }
  }

  /** Every message fits its settings. */
  predicate AllFit(cfg: Config, msgs: seq<(Inbound, External)>) {
    forall k :: 0 <= k < |msgs| ==> Fits(cfg, msgs[k].1)
  }

  /** Messages handled one after another, each with its external inputs:
      every message adds exactly one user record and one bot record, so a
      table of whole turns stays one. */
  function Run(cfg: Config, log: seq<Record>, msgs: seq<(Inbound, External)>): (r: seq<Record>)
    requires AllFit(cfg, msgs)
    ensures |r| == |log| + 2 * |msgs|
    ensures forall i :: 0 <= i < |log| ==> r[i] == log[i]
    ensures Paired(log) ==> Paired(r)
    decreases |msgs|
  {
    if |msgs| == 0 then log
    else
      var next := Handle(cfg, log, msgs[0].0, msgs[0].1).log;
      HandleAppendsTurn(cfg, log, msgs[0].0, msgs[0].1);
      assert AllFit(cfg, msgs[1..]) by {
        assert forall k :: 0 <= k < |msgs| - 1 ==> msgs[1..][k] == msgs[k + 1];
      }
      Run(cfg, next, msgs[1..])
  }

  // ---------------------------------------------------------------------
  // the handler as written

  /** `predict` as written: the ranker loop of line 165, so any ranker of
      the conditional role silences the ensemble and candidate 0 wins. */
  function PredictAsWritten(rankers: seq<RankerSpec>, candidates: seq<string>, scores: seq<seq<real>>): (reply: string)
    requires |candidates| >= 1
    requires |candidates| > 1 ==> |scores| == |rankers| && WellShaped(scores, |candidates|)
    ensures reply in candidates
    ensures |candidates| == 1 || HasCond(rankers) ==> reply == candidates[0]
  {
    var k := SelectAsWritten(rankers, scores, |candidates|).index;
    assert |candidates| > 1 && HasCond(rankers) ==> k == 0 by {
      if |candidates| > 1 && HasCond(rankers) {
        AsWrittenConditionalForcesFirst(rankers, scores, |candidates|);
      }
    }
    candidates[k]
  }

  /** How a run of the code as written ended: its events and table, and
      whether line 226 raised. */
  datatype AsWrittenRun = AsWrittenRun(result: TurnResult, raised: bool)

  /** What a run cut short at line 226 leaves behind: the user record is
      stored with nothing after it, and the trace holds only the history
      query, the store and the typing indicator, ending with the store of
      the user record and then the typing indicator. */
  predicate CutShort(t: TurnResult, log: seq<Record>, msg: Inbound) {
    && t.log == log + [UserRecord(msg)]
    && (forall e :: e in t.trace ==> e.QueryHistory? || e.Put? || e.SendTyping?)
    && |t.trace| >= 2 && t.trace[|t.trace| - 1] == SendTyping(msg.chatId)
    && t.trace[|t.trace| - 2] == Put(UserRecord(msg))
  }

  /** A run cut short at line 226: the history query (if any), the user
      record and the typing indicator, and nothing after them. */
  function AbortedRun(cfg: Config, log: seq<Record>, msg: Inbound): (t: TurnResult)
    ensures CutShort(t, log, msg)
    ensures forall e :: e in t.trace ==> !e.Generate? && !e.SendText?
  {
    var query := QueryEvents(cfg, msg.chatId);
    var trace := query + [Put(UserRecord(msg)), SendTyping(msg.chatId)];
    assert forall e :: e in trace ==> e.QueryHistory? || e.Put? || e.SendTyping? by {
      forall e | e in trace
        ensures e.QueryHistory? || e.Put? || e.SendTyping?
      {
        assert e in query || e == Put(UserRecord(msg)) || e == SendTyping(msg.chatId);
      }
    }
    TurnResult(trace, log + [UserRecord(msg)])
  }

  /** A run that reaches the end with the given prompt and reply. */
  function CompletedRun(cfg: Config, log: seq<Record>, msg: Inbound, ext: External, prompt: string, reply: string): (t: TurnResult)
    ensures t.log == log + [UserRecord(msg), BotRecordFor(msg, reply, DecideMedia(Strip(msg.text), ext.draw).media, ext.gif)]
  {
    var media := DecideMedia(Strip(msg.text), ext.draw).media;
    var bot := BotRecordFor(msg, reply, media, ext.gif);
    var trace := Layout(QueryEvents(cfg, msg.chatId), UserRecord(msg), msg.chatId, prompt,
      RankerEvents(cfg, |ext.candidates|), reply, GifEvents(media, ext.gif, reply, msg.chatId), bot);
    TurnResult(trace, log + [UserRecord(msg), bot])
  }

  /** Lines 184-244 as written. When history is on and the chat has no
      stored message, the prompt at line 226 adds a string to a list: the
      run has stored the user record and sent the typing indicator, and
      stops there with no reply and no bot record. Otherwise it runs to the
      end with the reply `predict` as written chooses. */
  function HandleAsWritten(cfg: Config, log: seq<Record>, msg: Inbound, ext: External): (o: AsWrittenRun)
    requires Fits(cfg, ext)
    ensures o.raised <==> cfg.historyTurns > 0 && ChatMessages(log, msg.chatId) == []
    ensures o.raised ==> CutShort(o.result, log, msg)
    ensures o.raised ==> forall e :: e in o.result.trace ==> !e.Generate? && !e.SendText?
    ensures !o.raised ==> o.result.log == log + [UserRecord(msg), BotRecordFor(msg,
      PredictAsWritten(cfg.rankers, ext.candidates, ext.scores), DecideMedia(Strip(msg.text), ext.draw).media, ext.gif)]
  {
    var text := DecideMedia(Strip(msg.text), ext.draw).text;
    var history := HistoryAsWritten(cfg.historyTurns, log, msg.chatId, cfg.eos, cfg.historyMaxLength);
    HistoryAsWrittenEmptyIff(cfg.historyTurns, log, msg.chatId, cfg.eos, cfg.historyMaxLength);
    match PromptAsWritten(history, text)
    case TypeError => AsWrittenRun(AbortedRun(cfg, log, msg), true)
    case Prompt(prompt) =>
      AsWrittenRun(CompletedRun(cfg, log, msg, ext, prompt, PredictAsWritten(cfg.rankers, ext.candidates, ext.scores)), false)
  }

  /** A user record with no bot record after it leaves the table without
      whole turns, whatever it held before. */
  lemma UserRecordAloneBreaksPairing(log: seq<Record>, user: Record)
    requires user.from == 0
    ensures !Paired(log + [user])
  {
    var next := log + [user];
    if |next| % 2 == 0 {
      assert !PairAt(next, |next| - 2);
    }
  }

  /** A run that raised leaves a user record with no bot record after it,
      so the table no longer holds whole turns, whatever it held before. */
  lemma AbortedRunBreaksPairing(cfg: Config, log: seq<Record>, msg: Inbound, ext: External)
    requires Fits(cfg, ext)
    requires cfg.historyTurns > 0 && ChatMessages(log, msg.chatId) == []
    ensures HandleAsWritten(cfg, log, msg, ext).raised
    ensures !Paired(HandleAsWritten(cfg, log, msg, ext).result.log)
  {
    UserRecordAloneBreaksPairing(log, UserRecord(msg));
  }

  /** Where history does not raise and the ensemble is not silenced (a
      single candidate, or every ranker feeding `prior_results`), the code
      as written runs exactly as the corrected handler. */
  lemma HandleAsWrittenAgrees(cfg: Config, log: seq<Record>, msg: Inbound, ext: External)
    requires Fits(cfg, ext)
    requires !(cfg.historyTurns > 0 && ChatMessages(log, msg.chatId) == [])
    requires |ext.candidates| == 1 || forall i :: 0 <= i < |cfg.rankers| ==> FeedsPrior(cfg.rankers[i])
    ensures !HandleAsWritten(cfg, log, msg, ext).raised
    ensures HandleAsWritten(cfg, log, msg, ext).result == Handle(cfg, log, msg, ext)
  {
    HistoryAsWrittenEmptyIff(cfg.historyTurns, log, msg.chatId, cfg.eos, cfg.historyMaxLength);
    HistoryAsWrittenAgrees(cfg.historyTurns, log, msg.chatId, cfg.eos, cfg.historyMaxLength);
    if |ext.candidates| > 1 {
      AsWrittenAgreesWithoutConditional(cfg.rankers, ext.scores, |ext.candidates|);
    }
    assert PredictAsWritten(cfg.rankers, ext.candidates, ext.scores) == ReplyOf(cfg, ext);
  }
}


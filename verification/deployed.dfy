/** The settings the handler is deployed with, and what they imply. */
module Deployed {
  import opened PyStr
  import opened Ranking
  import opened Media
  import opened Store
  import opened Handler

  /** A 1000-token generation window less 256 for the query and reply. */
  const HistoryMaxLength: nat := 1000 - 256
  const HistoryTurns: nat := 0
  /** `predict`'s own `num_return_sequences` (line 133), not a module-level setting. */
  const NumReturnSequences: nat := 8
  /** The one active ranker: human-vs-random, weight 0.5, tag 0. */
  const Rankers: seq<RankerSpec> := [RankerSpec(0.5, 0)]

  /** The deployed settings; the separator is the tokenizer's
      end-of-sequence token, which comes from the tokenizer. */
  function Settings(eos: string): Config {
    Config(HistoryTurns, HistoryMaxLength, eos, Rankers, NumReturnSequences)
  }

  /** History is off: the prompt is the user text alone, whatever the
      table holds (and `QueryIffEnabled` shows nothing is queried). */
  lemma DeployedPromptIsMessage(eos: string, log: seq<Record>, msg: Inbound, draw: real)
    ensures PromptOf(Settings(eos), log, msg, draw) == DecideMedia(Strip(msg.text), draw).text
  {
  }

  /** Scaling a vector by a positive weight keeps its first maximum. */
  lemma ScaledFirstMax(v: seq<real>, w: real, u: seq<real>, k: nat)
    requires w > 0.0 && |u| == |v|
    requires forall j :: 0 <= j < |v| ==> u[j] == w * v[j]
    ensures IsFirstMax(u, k) <==> IsFirstMax(v, k)
  {
    if k < |v| {
      forall j | 0 <= j < |v|
        ensures (u[j] <= u[k] <==> v[j] <= v[k]) && (u[j] < u[k] <==> v[j] < v[k])
      {
        assert u[k] - u[j] == w * (v[k] - v[j]);
      }
    }
  }

  /** With the deployed ranker and the fresh-score step, the reply is the
      first candidate with the best human-vs-random score. */
  lemma DeployedPicksBestScore(scores: seq<seq<real>>)
    requires |scores| == 1 && WellShaped(scores, NumReturnSequences)
    ensures Select(Rankers, scores, NumReturnSequences).index == ArgMax(scores[0])
  {
    var n := NumReturnSequences;
    var total := Total(Rankers, scores, n);
    assert !FeedsPrior(Rankers[0]);
    assert Rankers[..0] == [] && scores[..0] == [];
    assert HasCond(Rankers) && !HasPrior(Rankers);
    forall j | 0 <= j < n
      ensures total[j] == 0.5 * scores[0][j]
    {
      assert CondSum(Rankers, scores, n, j) == 0.0 + 0.5 * scores[0][j];
    }
    var k := Select(Rankers, scores, n).index;
    ScaledFirstMax(scores[0], 0.5, total, k);
    FirstMaxUnique(scores[0], k, ArgMax(scores[0]));
  }

  /** As written, the deployed ranker is never heard: candidate 0 is the
      reply whatever the scores. */
  lemma DeployedAsWrittenPicksFirst(scores: seq<seq<real>>)
    requires |scores| == 1 && WellShaped(scores, NumReturnSequences)
    ensures SelectAsWritten(Rankers, scores, NumReturnSequences).index == 0
  {
    assert !FeedsPrior(Rankers[0]);
    AsWrittenConditionalForcesFirst(Rankers, scores, NumReturnSequences);
  }

  /** The deployed handler as written never raises, since history is off,
      and always stores candidate 0 as the reply, whatever the scores. */
  lemma DeployedAsWrittenRepliesFirst(eos: string, log: seq<Record>, msg: Inbound, ext: External)
    requires Fits(Settings(eos), ext)
    ensures !HandleAsWritten(Settings(eos), log, msg, ext).raised
    ensures HandleAsWritten(Settings(eos), log, msg, ext).result.log[|log| + 1].message == ext.candidates[0]
  {
    assert !FeedsPrior(Rankers[0]);
    assert HasCond(Rankers);
  }
}


# dialogpt-telegram-bot: a Dafny model of the message handler

The bot answers Telegram messages with DialoGPT. Each inbound update goes through `handle_record` in `function/handler.py`, which:

- trims the user text;
- optionally fetches the newest stored messages of the chat and builds a history window from them;
- stores the user message;
- decides whether to send a GIF, either because the text holds an inline `@gif` tag or because a 10% draw comes up;
- sends a typing indicator;
- generates candidate replies;
- picks one of them with an ensemble of DialogRPT rankers;
- sends the reply, and the GIF if one was decided and the lookup worked;
- stores the bot's reply.

This project models that pipeline as pure functions over immutable data and proves what it promises.

The modules follow the program's structure:

- `PyStr` (`pystr.dfy`) models the Python string and list operations the handler relies on:
  - `str.strip`, whose whitespace set is that of `str.isspace`;
  - the `in` test;
  - `str.replace(pat, '')`;
  - `[::-1]`, `sep.join`, and the negative slice `s[-k:]`.
- `Store` (`store.dfy`) models the chat-history table as an append-only log of records. A query keyed on the chat id, newest first with a row limit, returns the newest `limit` messages of that chat.
- `History` (`history.dfy`) models the history window.
  - It gives the code as written, which leaves an empty list behind when the query finds nothing.
  - It also gives the corrected string-valued version.
- `Ranking` (`ranking.dfy`) models the ranker ensemble:
  - the `prior_results` / `cond_results` accumulators;
  - the step as written and the step with the fresh score;
  - the combination rule;
  - `torch.argmax` as the first maximal index;
  - the selection, which skips the rankers for a single candidate.
- `Media` (`media.dfy`) models the GIF decision: the tag, the draw, and the tag removal.
- `Handler` (`handler.dfy`) models one run of `handle_record` as a trace of observable events plus the table after the run. It also models a fold of runs over a sequence of messages. `Handle` uses the corrected history and the fresh-score ranking step; `HandleAsWritten` is the code as written, including the run that raises at line 226.
- `Deployed` (`deployed.dfy`) holds the module-level settings (lines 29-40), the number of candidates `predict` asks for (line 133), and what they imply.

The model takes these as inputs, because they are outside the model's reach:

- the uniform draw;
- the generator's candidates;
- the rankers' sigmoid scores;
- the outcome of the GIF lookup;
- the tokenizer's end-of-sequence token.

## Model

| member | source | states |
|---|---|---|
| PyStr.Strip | function/handler.py:189 | `strip` returns a string no longer than its input whose first and last characters are not whitespace |
| PyStr.StripFramed | function/handler.py:189 | what `strip` returns sits inside the input with only whitespace before and after it |
| PyStr.StripIdempotent | function/handler.py:223 | stripping an already stripped text changes nothing |
| PyStr.StripFixedIff | function/handler.py:189 | `strip` leaves a string unchanged exactly when it is empty or neither end is whitespace |
| PyStr.ContainsIffOccurs | function/handler.py:220 | the `in` test holds exactly when the pattern occurs at some offset of the text |
| PyStr.RemoveAllFixedIff | function/handler.py:223 | `replace(pat, '')` changes the text exactly when `pat` occurs in it, and then makes it strictly shorter |
| PyStr.RemoveAllFirstOccurrence | function/handler.py:223 | `replace(pat, '')` keeps everything before the first occurrence of `pat`, drops that occurrence, and treats the rest after it the same way |
| PyStr.Reverse | function/handler.py:205 | `[::-1]` keeps the length and puts element `i` at position `len - 1 - i` |
| PyStr.ReverseInvolutive | function/handler.py:205 | reversing twice gives the list back |
| PyStr.JoinAppend | function/handler.py:206 | joining a concatenation is joining each part with one separator between them |
| PyStr.JoinEndsWithLast | function/handler.py:206 | the last item of a non-empty list ends its join |
| PyStr.TakeLast | function/handler.py:208 | `s[-k:]` is a suffix of `s` of length `min(k, len(s))` for positive `k`, and all of `s` for `k == 0` |
| Store.Query | function/handler.py:195-199 | the descending query with limit `L` returns `min(L, count)` messages, newest first: item `i` is the chat's `i`-th newest message |
| Store.QueryChronological | function/handler.py:195-205 | put back in chronological order, the query result is a suffix of the chat's messages and holds at most `L` of them |
| Store.ChatMessagesAppend | function/handler.py:210-217 | storing a record of another chat leaves a chat's messages alone; storing one of the same chat adds its message at the end |
| History.NewestEndsJoin | function/handler.py:205-207 | after reversal and joining, the newest item followed by the separator ends the history text |
| History.Window | function/handler.py:205-208 | the window is a suffix of the chronological join plus a trailing separator; with a positive budget its length is `min(budget, full length)` and it keeps the newest message whole when that fits; a zero budget keeps everything |
| History.HistoryText | function/handler.py:192-208 | the corrected history is empty when history is off or the chat is new; it is within a positive budget; it is a suffix of the newest `2 * turns` messages joined in order; it keeps the newest message whole when that fits |
| History.HistoryTextIsLastChars | function/handler.py:194-208 | with history on and a stored message, the history is exactly `full[-history_max_length:]`, where `full` is the newest `2 * turns` messages joined in chronological order plus `eos`: its length is `min(budget, len(full))` for a positive budget, and it is all of `full` for a zero budget |
| History.HistoryAsWrittenEmptyIff | function/handler.py:192-204 | the code as written leaves an empty list exactly when history is on and the chat has no stored message |
| History.HistoryAsWrittenAgrees | function/handler.py:192-208 | whenever the code as written produces a string, it is the corrected history |
| History.FirstMessageCrashesAsWritten | function/handler.py:202-204 | with history on, the first message of a chat makes line 226 add a string to a list (a `TypeError`); the corrected history makes the prompt the message itself |
| Ranking.StepAsWrittenKeepsZero | function/handler.py:164-166 | whatever the ranker and its scores, the step as written leaves a zero `cond_results` at zero |
| Ranking.Accumulate | function/handler.py:153-166 | with the fresh-score step, each accumulator holds per candidate the weighted score sum of the rankers of its role, and each flag says whether any ranker of that role exists |
| Ranking.AccumulateAsWritten | function/handler.py:153-166 | as written, `prior_results` is the intended weighted sum but `cond_results` stays all zero, while `has_cond` is still set |
| Ranking.Total | function/handler.py:168-174 | the combined score is the product of the two role sums when both roles are present, the only present role's sum otherwise, and the prior sum when no ranker ran |
| Ranking.ArgMax | function/handler.py:176 | `argmax` returns an index holding the maximum that no earlier index reaches |
| Ranking.FirstMaxUnique | function/handler.py:176 | a vector has only one first maximal index |
| Ranking.Select | function/handler.py:150-177 | with the fresh-score step (line 165 corrected): a single candidate is taken without running any ranker; with several, every ranker runs and the chosen index is the first with the best combined score |
| Ranking.SelectAsWritten | function/handler.py:150-177 | the code as written always picks an index among the candidates |
| Ranking.ArgMaxOfZero | function/handler.py:176 | on an all-zero vector `argmax` is 0 |
| Ranking.AsWrittenConditionalForcesFirst | function/handler.py:161-176 | as written, once any conditional ranker is configured the choice is candidate 0 whatever the scores |
| Ranking.AsWrittenAgreesWithoutConditional | function/handler.py:161-176 | as written, the choice is the intended one when every ranker feeds `prior_results` |
| Ranking.ConditionalExample | function/handler.py:161-176 | for the scores 0.2, 0.9, 0.9 under one conditional ranker of weight 0.5, the intended rule picks candidate 1 and the code picks candidate 0 |
| Ranking.FlipSwapsSums | function/handler.py:33-40 | exchanging every ranker's role exchanges the two per-role sums |
| Ranking.FlipSwapsRoles | function/handler.py:33-40 | exchanging every ranker's role exchanges which roles are present |
| Ranking.RoleSwapHarmlessAt | function/handler.py:161-174 | exchanging every ranker's role leaves each candidate's combined score unchanged |
| Ranking.RoleSwapHarmless | function/handler.py:161-174 | under the fresh-score step, the combined score does not depend on which tag value names which role, so the tag 1 → prior mapping, the reverse of the line-33 comment, selects the same reply |
| Ranking.TagDecidesAsWritten | function/handler.py:161-166 | as written, the tag decides whether a ranker is heard: one ranker of weight 0.5 on the scores 0.2, 0.9, 0.9 gives candidate 0 under tag 0 and candidate 1 under tag 1 |
| Media.DecideMedia | function/handler.py:219-223 | a GIF is chosen exactly when the tag occurs or the draw is below 0.1; the text changes exactly when the tag occurs, and then becomes the stripped, strictly shorter text with every occurrence removed |
| Media.TagIgnoresDraw | function/handler.py:219-222 | when the tag occurs, the draw does not matter and a GIF is always chosen |
| Media.RemoveAllExample | function/handler.py:223 | one left-to-right removal pass turns `@@gifgif` into `@gif` |
| Media.RemovalNotIdempotent | function/handler.py:219-223 | `@@gifgif` asks for a GIF and becomes `@gif`, which still holds the tag, so the removal is not idempotent |
| Handler.Predict | function/handler.py:150-181 | with the fresh-score step (line 165 corrected): the reply is the only candidate, or otherwise a candidate at the first index with the best combined score |
| Handler.Handle | function/handler.py:184-244 | in the corrected handler, a run appends exactly two records and keeps the table before them; the first is the user's stripped text (`from` 0), the second is one of the candidates (`from` 1), both with the update id and chat id; storing the bot record is the last event |
| Handler.LayoutOrder | function/handler.py:192-244 | in any run's layout, the query comes before the user record, then typing, generation, the reply, and finally the bot record |
| Handler.HandleOrder | function/handler.py:192-244 | a run queries the history (when enabled) before storing the user record, stores that before typing, types before generating, generates before sending the reply, and sends before storing the bot record as the last event |
| Handler.HandlePrompt | function/handler.py:192-226 | the reply is generated from exactly one prompt: the history built from the table before this message was stored, followed by the user's stripped text with any GIF tag removed |
| Handler.QueryIffEnabled | function/handler.py:194-199 | the history query happens exactly when history is on, with limit `2 * history_turns` |
| Handler.RankersIffSeveralCandidates | function/handler.py:150-158 | ranker `i` runs exactly when there is more than one candidate and `i` is a configured ranker |
| Handler.HandleGifSteps | function/handler.py:229-235 | the GIF lookup runs exactly when a GIF was chosen, and a GIF is sent exactly when it was chosen and the lookup returned a URL |
| Handler.HandleGifFailureSwallowed | function/handler.py:229-244 | when the lookup fails or no GIF was chosen, the bot record is still stored as the last step, with the reply and an empty GIF URL |
| Handler.AppendTurnKeepsPaired | function/handler.py:210-244 | appending a user record and the bot record of the same update keeps the table in user/bot pairs |
| Handler.HandleAppendsTurn | function/handler.py:210-244 | in the corrected handler, a run adds exactly two records, keeps every earlier record, and keeps a table of whole user/bot turns whole |
| Handler.Run | function/handler.py:184-244 | in the corrected handler, handling `m` messages in turn adds `2m` records, never changes earlier records, and keeps a table of whole user/bot turns whole |
| Handler.PredictAsWritten | function/handler.py:150-181 | `predict` as written returns one of the candidates, and candidate 0 when there is only one or when any ranker has the conditional role |
| Handler.HandleAsWritten | function/handler.py:184-244 | the code as written raises exactly when history is on and the chat has no stored message; it has then stored only the user record, sent the typing indicator and nothing after it, and generated nothing; otherwise it stores the user record and the bot record holding the as-written reply |
| Handler.UserRecordAloneBreaksPairing | function/handler.py:210-226 | a user record with no bot record after it leaves the table without whole turns |
| Handler.AbortedRunBreaksPairing | function/handler.py:192-226 | as written, the first message of a chat with history on raises and leaves the table without whole turns, whatever it held before |
| Handler.HandleAsWrittenAgrees | function/handler.py:184-244 | when history does not raise and the ensemble is not silenced (one candidate, or every ranker feeding `prior_results`), the code as written runs exactly as the corrected handler |
| Deployed.DeployedPromptIsMessage | function/handler.py:31-32 | with history off, the prompt is the user's text after GIF handling, whatever the table holds |
| Deployed.ScaledFirstMax | function/handler.py:176 | scaling a vector by a positive weight keeps its first maximal index |
| Deployed.DeployedPicksBestScore | function/handler.py:34-40 | with the deployed ranker and the fresh-score step, the reply is the first candidate with the best human-vs-random score |
| Deployed.DeployedAsWrittenPicksFirst | function/handler.py:34-40 | as written, the deployed conditional ranker is never heard: candidate 0 is the reply whatever the scores |
| Deployed.DeployedAsWrittenRepliesFirst | function/handler.py:29-40 | the deployed handler as written never raises, because history is off, and always stores candidate 0 as the reply |

## Left out

- Loading the model, the tokenizer and the rankers (lines 45-76): file-system caching with no logic the handler depends on.
- Telegram calls (`send_typing`, `send_message`, `send_gif`, lines 79-101): each becomes an event in the trace. Their URL quoting and HTTP responses are left out.
- The Giphy lookup (lines 104-125): the outcome is an input that says the lookup returned a URL or raised. The retry policy and the JSON path are left out.
- Generation (lines 128-147): the candidates are an input. There is at least one of them, `num_return_sequences` in number. The tokenizer's encoding and decoding are left out.
- The ranker forward pass and its sigmoid (lines 158-159): each ranker's per-candidate scores are an input.
  - Scores are reals, not 32-bit floats, so rounding in the weighted sums is not modelled.
  - The `[0]` row taken of the logits is also left out. What that row holds depends on the output shape of an external model.
- Ranking.Select: it is the corrected selection, with the fresh score at line 165. As written, any tag-0 ranker forces candidate 0 (`Ranking.SelectAsWritten`, `Ranking.AsWrittenConditionalForcesFirst`).
- Handler.Predict: it is the `predict` the corrected selection gives. The code as written is `Handler.PredictAsWritten`, which replies with candidate 0 whenever a tag-0 ranker is configured, as in the deployed settings.
- Ranking.Select: with several candidates and no configured ranker, the code picks candidate 0. In the model this is the first maximum of an all-zero total. The code reports no configuration error here.
- DynamoDB details:
  - the model assumes the sort order is insertion order, so the timestamp attribute is left out;
  - the 1 MB page limit of a query is left out;
  - the `item.get('message', '')` default is left out, because every stored record has a message.
- `lambda_handler` (lines 248-253): decodes the queue envelope and calls `handle_record` once per record.
- `main.py`: a standalone interactive loop over the same libraries, with its own generation and `argmax`; it does not call `handle_record`.
- Exceptions raised by the Telegram calls, generation, or the table: a run is modelled as completing.
  - Only the GIF lookup's failure is modelled, because the code catches it.
  - The `TypeError` of the empty history is modelled in `History.PromptAsWritten` and `Handler.HandleAsWritten`.
- Handler.Handle: an update without `message.chat.id` or `message.text` (a photo, a sticker, an `edited_message` update) raises `KeyError` at lines 188-189, before any step; `Handler.Inbound` models text messages only.
- Concurrency between runs of the same chat, and duplicate delivery of an update: the code does nothing about either.
- Handler.Handle: the code does not reject a text that is empty after stripping. It stores it and generates from it, and so does the model.
- Handler.Handle: the stored user record keeps any `@gif` tag, because line 213 stores the text before line 223 removes the tag.
- Handler.Handle: the run uses the corrected history (`History.HistoryText`) and the fresh-score ranking step (`Ranking.Select`). The code as written is modelled separately, in `Handler.HandleAsWritten`, which uses `History.HistoryAsWritten` and `Ranking.SelectAsWritten`.
- Handler.HandleAppendsTurn: the pairing it proves holds for the corrected handler only. As written, the first message of a chat with history on stores a user record and then raises, which breaks the pairing (`Handler.AbortedRunBreaksPairing`).
- Handler.Run: it folds the corrected handler. As written, the same first-message abort leaves an unpaired user record, so the table does not keep whole turns.
- History.HistoryText: the length bound is stated for a positive budget only. `s[-0:]` keeps the whole string, so a budget of 0 does not bound it (`History.HistoryTextIsLastChars` states that case). The deployed budget is 744.

## Findings

| source | as written | input that shows it | evidently intended | confidence | as-written member | corrected member |
|---|---|---|---|---|---|---|
| function/handler.py:165 | `cond_results += weight * cond_results` scales the running total, which starts at zero and so stays zero; with any conditional ranker the combined score is all zero and `argmax` picks candidate 0 | one conditional ranker of weight 0.5 with scores 0.2, 0.9, 0.9: candidate 0 is chosen | `cond_results += weight * ranker_results`, so candidate 1 (the first best) is chosen | not executed | Ranking.AsWrittenConditionalForcesFirst | Ranking.Select |
| function/handler.py:202-204 | when history is on and the query finds no items, `history_texts` is left as an empty list, and line 226 adds a string to it | `history_turns = 1` and the first message of a new chat: the run stores the user record, raises, and stores no reply | treat the empty result as empty history, so the prompt is the message alone | not executed | Handler.AbortedRunBreaksPairing | History.HistoryText |

# LLM chess arena: move resolution and provider wrappers, in Dafny

The application pits two large-language-model "engines" against each other in a game
of chess. On each turn the side to move is asked for a move through one of four
provider wrappers (OpenAI, Claude, DeepSeek, Gemini). `safe_get_move` then turns the
untrusted answer text into a legal move, a random fallback move, or a forfeit.

This project models that core and proves properties of it:

- **`MoveLogic`** (`move_logic.dfy`) models `safe_get_move` as an imperative method with
  the source's loop. The method makes at most `max_retries` calls. Each answer is
  stripped, then parsed as UCI, then as SAN. The first answer that parses to a legal
  move wins. Each rejected answer is appended verbatim to the exclusion list passed to
  the next call. When every attempt fails, the method falls back to a random legal move
  or forfeits. The method is proved against the recursive specification `Attempts`,
  which lists the answers a run receives. `Attempts` is shown equivalent to the
  declarative description `ValidRun`: call k sees exactly the earlier answers, every
  answer but the last was rejected, and the run stops early only on an accepted
  answer.
- **`AiWrappers`** (`ai_wrappers.dfy`) models:
  - the prompt that all four wrappers build;
  - the extraction of the response text from each backend, including the join of
    Claude's content blocks;
  - the `.strip()` each wrapper applies;
  - the `ENGINE_FUNCTIONS` table.

  The lemmas show that the prompt names the side to move and carries the FEN
  verbatim. They also show the exclusion list can be read back from the prompt
  exactly, entries verbatim, in order, with duplicates kept.
- **`PyText`** (`py_text.dfy`) models the two Python built-ins the core relies on:
  - `str.strip()`, with Python's whitespace set. It is characterised independently as
    the only trimmed infix with whitespace-only margins.
  - `repr` of a `str` and of a `list` of `str`, which is what the f-string interpolation
    of the exclusion list writes. It comes with a decoder and a round-trip proof.
- **`Chess`** (`chess.dfy`) holds the position as the core sees it. The chess rules
  library (legal moves, FEN, UCI and SAN parsing) is an oracle carried by a `Board`
  value. The core therefore cannot change the position, by construction.
- **`Match`** (`match.dfy`) follows a run, for any `max_retries`, through the wrapper
  that `ENGINE_FUNCTIONS` holds under an engine's name, as main.py looks it up. It also
  works out three runs with `max_retries=3`, the value main.py passes, against an
  example oracle whose only legal move is e2e4:
  - a padded UCI answer is accepted on the first call;
  - a SAN answer is accepted on the first call;
  - an engine that repeats an invalid answer is asked three times, then forfeits or
    falls back.

The provider backends (network clients), randomness and the chess rules library are
parameters of the model. `random.choice` is modelled as a nondeterministic choice from
the legal-move set. When that set is empty, the outcome is `ChoiceFailed`, which stands
for the `IndexError` Python raises.

No error tolerance is added to `safe_get_move`: engine exceptions are not modelled
(see "## Left out"). With `max_retries <= 0`, no call is made and the method goes
straight to the fallback or the forfeit, as the code does.

## Model

| member | source | states |
|---|---|---|
| MoveLogic.SafeGetMove | move_logic.py:7-64 | The answers received are exactly `Answers` (so they form a `ValidRun`). The outcome is the accepted answer's parsed move; otherwise a forfeit when there is no fallback; otherwise `ChoiceFailed` on an empty legal set; otherwise some legal move. A resolved move is always legal. |
| MoveLogic.Accepts | move_logic.py:45 | An answer is accepted when its interpretation is a move in the legal-move set; `AcceptsByParsers` states this in terms of the two parsers. |
| MoveLogic.AcceptsByParsers | move_logic.py:36-45 | An answer is accepted exactly when its UCI parse is legal, or it has no UCI parse and its SAN parse is legal. |
| MoveLogic.Interpret | move_logic.py:35-43 | The UCI parse is used when it succeeds. The SAN parse is used only when UCI fails. The result is None exactly when both fail. |
| MoveLogic.Budget | move_logic.py:31 | `range(max_retries)` runs `max_retries` times when that is non-negative, and zero times otherwise. |
| MoveLogic.AttemptsAreValidRun | move_logic.py:29-51 | The run `Attempts` computes meets the declarative description: at most budget calls; call k receives the earlier exclusions plus answers 0..k-1 verbatim and in order; all but the last answer rejected; early stop only on acceptance. |
| MoveLogic.ValidRunIsAttempts | move_logic.py:29-51 | Any run meeting that description is the one `Attempts` computes, so the description determines the run. |
| MoveLogic.CallBound | move_logic.py:31-32 | The engine is called at most `max_retries` times, at least once when that is positive, and never when it is not positive. |
| MoveLogic.ExhaustedRunUsesBudget | move_logic.py:31-52 | A run that does not end on an accepted answer used every one of its attempts. |
| MoveLogic.FirstAnswerAccepted | move_logic.py:45-46 | When the first stripped answer is legal, the engine is called exactly once, with an empty exclusion list. |
| MoveLogic.RepeatedRejection | move_logic.py:48-49 | An engine that always gives the same rejected answer is called once per remaining attempt, and the answer is excluded once per rejection (duplicates kept). |
| MoveLogic.PermittedOutcome | move_logic.py:53-64 | A resolved move is legal. A forfeit happens exactly when there is no fallback and no accepted answer. `ChoiceFailed` happens exactly when there is a fallback, no legal move and no accepted answer. An accepted answer's move is the one returned. |
| PyText.IsSpace | move_logic.py:32 | The whitespace set of `str.isspace()` that `str.strip()` removes. `AsciiSpaces` and `MoveTextIsNotSpace` state its ASCII part and that move text is never whitespace. |
| PyText.AsciiSpaces | move_logic.py:32 | Among ASCII characters, exactly tab, newline, vertical tab, form feed, carriage return, U+001C to U+001F and space are whitespace. |
| PyText.MoveTextIsNotSpace | move_logic.py:32 | Letters, digits and the SAN symbols `+`, `#`, `=`, `-` are never whitespace, so stripping never eats into a move. |
| PyText.Strip | move_logic.py:32 | `str.strip()`: the result is no longer than the input and has no whitespace at either end; `StripMargins` and `StripUnique` pin it down fully. |
| PyText.StripMargins | move_logic.py:32 | The stripped text has no whitespace at either end, and it sits in the original between two runs of whitespace only. |
| PyText.StripUnique | move_logic.py:32 | Any trimmed infix with whitespace-only margins is the strip, so the margins description determines `str.strip()`. |
| PyText.StripIdempotent | ai_wrappers.py:59 | Stripping twice is stripping once, so the loop's second strip of a wrapper's answer changes nothing. |
| PyText.QuoteFor | ai_wrappers.py:41 | repr quotes with `'` or `"`. It uses `"` exactly when the string holds a `'` and no `"`. |
| PyText.StrRepr | ai_wrappers.py:41 | A string's repr starts and ends with its quote character. |
| PyText.StrReprRoundTrip | ai_wrappers.py:41 | A string's repr reads back as the same string, whatever text follows it. |
| PyText.ListRepr | ai_wrappers.py:41 | A list repr is bracketed, and it is `[]` exactly for the empty list. |
| PyText.ListReprRoundTrip | ai_wrappers.py:41 | The list repr written into the prompt reads back as the same list: entries verbatim, in order, duplicates kept. |
| PyText.ListReprInjective | ai_wrappers.py:41 | Different lists have different reprs. |
| AiWrappers.ColorName | ai_wrappers.py:36 | The side is written "White" exactly for White and "Black" exactly for Black. |
| AiWrappers.ExclusionText | ai_wrappers.py:38-43 | The exclusion block is empty exactly when the exclusion list is empty. |
| AiWrappers.BuildPrompt | ai_wrappers.py:34-50 | The prompt starts with the three fixed lines. It is longer than them exactly when the exclusion list is non-empty; an absent list counts as empty. |
| AiWrappers.PromptNamesTurn | ai_wrappers.py:46 | Reading the first line of a prompt back gives the side to move. |
| AiWrappers.PromptContainsFen | ai_wrappers.py:47 | The FEN stands verbatim on the second line, right after "Given this FEN: ". |
| AiWrappers.PromptWithoutExclusions | ai_wrappers.py:34-50 | With no exclusions, the prompt is exactly the three fixed lines, the same as with an absent list. |
| AiWrappers.PromptWithExclusions | ai_wrappers.py:38-50 | With exclusions, the prompt is the fixed lines, then the header line, the list repr and the instruction not to repeat them or play illegal moves. |
| AiWrappers.PromptListsExclusions | ai_wrappers.py:39-43 | The exclusion list can be read back from the prompt: verbatim, in order, duplicates kept. |
| AiWrappers.PromptDeterminesExclusions | ai_wrappers.py:38-50 | Two prompts for the same position are equal only when the exclusion lists are equal. |
| AiWrappers.JoinBlocks | ai_wrappers.py:99-100 | Joining no blocks gives the empty string. |
| AiWrappers.JoinBlocksAppend | ai_wrappers.py:100 | Joining distributes over concatenation of block lists: each block's text appears once, in order. |
| AiWrappers.JoinOneBlock | ai_wrappers.py:100 | A single block joins to its own text, or to its string form when it has no text. |
| AiWrappers.ClaudeJoinsBlocks | ai_wrappers.py:98-101 | When Claude answers with a list of blocks, the wrapper returns the stripped join of their texts. |
| AiWrappers.ContentText | ai_wrappers.py:98-100 | The text of a Claude response: the string itself, or the in-order join of its blocks (`ClaudeJoinsBlocks`, `JoinBlocksAppend`). |
| AiWrappers.ResponseText | ai_wrappers.py:54-177 | The text each wrapper reads from its backend: the message content for OpenAI and DeepSeek, the joined content for Claude, `response.text` for Gemini. `EngineMove` and `WrappersShareThePrompt` state what follows from it. |
| AiWrappers.EngineMove | ai_wrappers.py:25-177 | Every wrapper's answer has no whitespace at either end, and stripping it again leaves it unchanged. |
| AiWrappers.WrappersShareThePrompt | ai_wrappers.py:25-177 | All four wrappers send the same prompt, so backends that give the same text make the wrappers return the same move. |
| AiWrappers.EngineFunctions | ai_wrappers.py:180-185 | The table has exactly the four engine names as keys, and each name maps to its own wrapper. |
| AiWrappers.EngineFunction | ai_wrappers.py:180-185 | An `ENGINE_FUNCTIONS` entry as `safe_get_move` calls it (move_logic.py:32), always with a list: every answer it gives is trimmed, so the loop's strip leaves it unchanged. |
| Chess.Opponent | main.py:149 | The side that wins by forfeit is never the side that forfeited. |
| Match.RunPromptsListRejections | main.py:130-145 | In a run through the wrapper `ENGINE_FUNCTIONS` holds under an engine's name, call k returns the wrapper's answer for answers 0..k-1. That call's prompt lists exactly those answers, readable back verbatim and in order. |
| Match.UciAnswerAccepted | move_logic.py:32-46 | The padded answer " e2e4\n" is stripped, parsed as UCI and accepted on the first call, out of a budget of three. |
| Match.SanAnswerAccepted | move_logic.py:39-46 | The answer "e4", which is not UCI, is parsed as SAN and accepted on the first call. |
| Match.InvalidAnswerRepeated | move_logic.py:31-64 | An engine that keeps answering "e9e9" is asked three times, and "e9e9" is excluded three times. Without the fallback the side forfeits; with it, the only legal move is played. |

## Left out

- Network clients and credentials (ai_wrappers.py:15-22) are not modelled. Each backend is a function parameter from (model name, prompt) to response.
- openai_client.py, config.py, logger.py and ui.py are not part of this model, and neither is the rest of main.py's game loop (pushing moves, PGN and SVG output).
- Exceptions raised by a backend or by an engine function are not modelled. The source does not catch them, so they escape `safe_get_move`. A Gemini response without text, or a Claude content that is neither a string nor a list, is an exception of this kind.
- `debug_log` calls and `st.warning` messages are not modelled; they are output only. The `turn` parameter of `safe_get_move` is left out because it only appears in those messages.
- `random.choice` is modelled as an arbitrary choice from the legal moves. Its uniform distribution is not modelled.
- `excluded_moves` is passed to each call as a value, a snapshot of the list at call time. This is faithful because every wrapper reads the list only while building its prompt. Aliasing of the list object is not modelled.
- The chess rules library (legal-move generation, FEN, UCI and SAN parsing) is an oracle inside `Board`. Applying a move and detecting the end of the game belong to main.py and are not modelled.
- PyText.EscapeChar: characters above U+00FF are written as they are. Python writes non-printable ones among them with `\u` (up to U+FFFF) or `\U` escapes. The round trip is still proved for the modelled encoding.
- MoveLogic.SafeGetMove: the Python defaults `max_retries=3` and `random_fallback=True` (move_logic.py:12-13) are not modelled; both are parameters without defaults. main.py:142-143 always passes both.
- The wrappers' `excluded_moves=None` default is modelled as `Option`, with None treated as the empty list. `safe_get_move` always passes its list (move_logic.py:32).

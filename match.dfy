/**
 * How main.py wires the two halves together: the engine function looked up in
 * `ENGINE_FUNCTIONS` is handed to `safe_get_move` with `max_retries=3`. The lemmas
 * here follow a run through the real wrappers, and work a few runs out against an
 * example oracle.
 */
module Match {
  import opened Options
  import opened Chess
  import opened PyText
  import opened AiWrappers
  import opened MoveLogic

  /**
   * Through the wrapper `ENGINE_FUNCTIONS` holds under an engine's name, call k of a
   * run receives exactly the answers of calls 0..k-1, and its prompt lists them so
   * that they can be read back verbatim and in order; the loop's own strip leaves the
   * wrapper's stripped answer unchanged.
   */
  lemma RunPromptsListRejections(engine: Engine, backends: Backends, board: Board,
                                 subModel: string, maxRetries: int)
    ensures var provider := EngineFunction(EngineFunctions()[EngineName(engine)], backends);
      var answers := Answers(board, provider, subModel, maxRetries);
      forall k :: 0 <= k < |answers| ==>
        && answers[k] == EngineMove(engine, backends, board, subModel, Some(answers[..k]))
        && PromptExclusions(BasePrompt(board.turn, board.fen), BoardPrompt(board, Some(answers[..k])))
           == Some(answers[..k])
  {
    assert EngineFunctions()[EngineName(engine)] == engine;
    var provider := EngineFunction(engine, backends);
    var answers := Answers(board, provider, subModel, maxRetries);
    AttemptsAreValidRun(board, Ask(board, provider, subModel), [], Budget(maxRetries));
    forall k | 0 <= k < |answers|
      ensures answers[k] == EngineMove(engine, backends, board, subModel, Some(answers[..k]))
      ensures PromptExclusions(BasePrompt(board.turn, board.fen), BoardPrompt(board, Some(answers[..k])))
        == Some(answers[..k])
    {
      assert [] + answers[..k] == answers[..k];
      PromptListsExclusions(board.turn, board.fen, Some(answers[..k]));
    }
  }

  // ---------------------------------------------------------------------------
  // Worked runs against an example oracle. It reports the starting FEN, but its only
  // legal move is e2e4 (the real position has twenty); UCI parsing knows "e2e4" and
  // SAN parsing knows "e4".

  const E2E4: Move := Move(12, 28, None)

  const StartFen: string := "rnbqkbnr/pppppppp/8/8/8/8/PPPPPPPP/RNBQKBNR w KQkq - 0 1"

  function ExampleBoard(): (board: Board) {
    Board(White, StartFen, {E2E4},
          s => if s == "e2e4" then Some(E2E4) else None,
          s => if s == "e4" then Some(E2E4) else None)
  }

  /** An engine that always answers `text`, whatever it is told. */
  function Constant(text: string): (provider: Provider) {
    (board: Board, subModel: string, excluded: seq<string>) => text
  }

  /** A padded UCI answer is stripped and accepted on the first call. */
  lemma UciAnswerAccepted(randomFallback: bool, r: Resolution)
    requires Permitted(ExampleBoard(), Answers(ExampleBoard(), Constant(" e2e4\n"), "gpt-4o", 3),
                       randomFallback, r)
    ensures Answers(ExampleBoard(), Constant(" e2e4\n"), "gpt-4o", 3) == ["e2e4"]
    ensures r == Resolved(E2E4)
  {
    StripUnique(" e2e4\n", "e2e4", 1);
    FirstAnswerAccepted(ExampleBoard(), Constant(" e2e4\n"), "gpt-4o", 3);
  }

  /** An answer that is not UCI is tried as SAN. */
  lemma SanAnswerAccepted(randomFallback: bool, r: Resolution)
    requires Permitted(ExampleBoard(), Answers(ExampleBoard(), Constant("e4"), "gpt-4o", 3),
                       randomFallback, r)
    ensures Answers(ExampleBoard(), Constant("e4"), "gpt-4o", 3) == ["e4"]
    ensures r == Resolved(E2E4)
  {
    StripUnique("e4", "e4", 0);
    FirstAnswerAccepted(ExampleBoard(), Constant("e4"), "gpt-4o", 3);
  }

  /**
   * An engine that keeps answering the off-board "e9e9" is asked three times, and the
   * answer is excluded three times; without the fallback the side forfeits, with it
   * the only legal move is played.
   */
  lemma InvalidAnswerRepeated(randomFallback: bool, r: Resolution)
    requires Permitted(ExampleBoard(), Answers(ExampleBoard(), Constant("e9e9"), "gpt-4o", 3),
                       randomFallback, r)
    ensures Answers(ExampleBoard(), Constant("e9e9"), "gpt-4o", 3) == ["e9e9", "e9e9", "e9e9"]
    ensures !randomFallback ==> r == Forfeit
    ensures randomFallback ==> r == Resolved(E2E4)
  {
    var board, provider := ExampleBoard(), Constant("e9e9");
    StripUnique("e9e9", "e9e9", 0);
    assert "e9e9" != "e2e4" && "e9e9" != "e4" by {
      assert "e9e9"[1] == '9';
    }
    RepeatedRejection(board, Ask(board, provider, "gpt-4o"), [], 3, "e9e9");
    assert seq(3, _ => "e9e9") == ["e9e9", "e9e9", "e9e9"];
  }
}

/**
 * `safe_get_move`: ask an engine function for a move up to `max_retries` times,
 * tell it each time which answers were already rejected, accept the first answer
 * that parses (UCI first, then SAN) to a legal move, and otherwise fall back to a
 * random legal move or give up (forfeit).
 */
module MoveLogic {
  import opened Options
  import opened Chess
  import opened PyText

  /**
   * How a call ends: a move, `None` (the side forfeits), or the IndexError that
   * `random.choice` raises when the fallback has no legal move to choose from.
   */
  datatype Resolution = Resolved(move: Move) | Forfeit | ChoiceFailed

  /**
   * The engine as the loop sees it: the answer to a call made with a given exclusion
   * list, stripped of surrounding whitespace.
   */
  type Asker = seq<string> -> string

  function Ask(board: Board, engine: Provider, subModel: string): (ask: Asker) {
    excluded => Strip(engine(board, subModel, excluded))
  }

  /** UCI parsing first; SAN parsing only when UCI parsing fails; None when both fail. */
  function Interpret(board: Board, raw: string): (move: Option<Move>)
    ensures board.parseUci(raw).Some? ==> move == board.parseUci(raw)
    ensures board.parseUci(raw).None? ==> move == board.parseSan(raw)
    ensures move.None? <==> board.parseUci(raw).None? && board.parseSan(raw).None?
  {
    match board.parseUci(raw)
    case Some(m) => Some(m)
    case None => board.parseSan(raw)
  }

  /** An answer is accepted when it parses to a move in the legal-move set. */
  predicate Accepts(board: Board, raw: string) {
    var move := Interpret(board, raw);
    move.Some? && move.value in board.legalMoves
  }

  /** Acceptance in terms of the two parsers: a legal UCI parse, or no UCI parse and a legal SAN parse. */
  lemma AcceptsByParsers(board: Board, raw: string)
    ensures Accepts(board, raw) <==>
      || (board.parseUci(raw).Some? && board.parseUci(raw).value in board.legalMoves)
      || (board.parseUci(raw).None? && board.parseSan(raw).Some?
          && board.parseSan(raw).value in board.legalMoves)
  {}

  /** The number of iterations of `range(max_retries)`. */
  function Budget(maxRetries: int): (n: nat)
    ensures maxRetries >= 0 ==> n == maxRetries
    ensures maxRetries <= 0 ==> n == 0
  {
    if maxRetries < 0 then 0 else maxRetries
  }

  /**
   * The answers the engine gives when at most `budget` attempts remain and the
   * answers in `excluded` were rejected before: one call per attempt, stopping
   * after the first accepted answer.
   */
  function Attempts(board: Board, ask: Asker, excluded: seq<string>,
                    budget: nat): (answers: seq<string>)
    decreases budget
  {
    if budget == 0 then []
    else
      var raw := ask(excluded);
      if Accepts(board, raw) then [raw]
      else [raw] + Attempts(board, ask, excluded + [raw], budget - 1)
  }

  /** The answers one call of `safe_get_move` receives, in order. */
  function Answers(board: Board, engine: Provider, subModel: string, maxRetries: int): (answers: seq<string>) {
    Attempts(board, Ask(board, engine, subModel), [], Budget(maxRetries))
  }

  /**
   * A declarative description of a run: at most `budget` calls; call k is made with
   * the earlier exclusions followed by the answers of calls 0..k-1, verbatim and in
   * order; every answer but the last was rejected; and the run stops early only
   * after an accepted answer.
   */
  ghost predicate ValidRun(board: Board, ask: Asker, excluded: seq<string>,
                           budget: nat, answers: seq<string>)
  {
    && |answers| <= budget
    && (forall k :: 0 <= k < |answers| ==>
          answers[k] == ask(excluded + answers[..k]))
    && (forall k :: 0 <= k < |answers| - 1 ==> !Accepts(board, answers[k]))
    && (|answers| < budget ==> |answers| > 0 && Accepts(board, answers[|answers| - 1]))
  }

  /** Whether the last answer of a run was accepted. */
  predicate EndsAccepted(board: Board, answers: seq<string>) {
    answers != [] && Accepts(board, answers[|answers| - 1])
  }

  /** The outcomes the function may end with after the run `answers`. */
  ghost predicate Permitted(board: Board, answers: seq<string>, randomFallback: bool, r: Resolution) {
    if EndsAccepted(board, answers) then
      r == Resolved(Interpret(board, answers[|answers| - 1]).value)
    else if !randomFallback then r == Forfeit
    else if board.legalMoves == {} then r == ChoiceFailed
    else r.Resolved? && r.move in board.legalMoves
  }

  lemma {:induction false} AttemptsAreValidRun(board: Board, ask: Asker,
                                               excluded: seq<string>, budget: nat)
    ensures ValidRun(board, ask, excluded, budget,
                     Attempts(board, ask, excluded, budget))
    decreases budget
  {
    if budget > 0 {
      var raw := ask(excluded);
      if !Accepts(board, raw) {
        var rest := Attempts(board, ask, excluded + [raw], budget - 1);
        AttemptsAreValidRun(board, ask, excluded + [raw], budget - 1);
        var answers := [raw] + rest;
        assert answers[0] == raw && answers[..0] == [];
        assert excluded + [] == excluded;
        forall k | 1 <= k < |answers|
          ensures answers[k] == ask(excluded + answers[..k])
        {
          assert answers[k] == rest[k - 1];
          assert answers[..k] == [raw] + rest[..k - 1];
          assert excluded + answers[..k] == excluded + [raw] + rest[..k - 1];
        }
        forall k | 1 <= k < |answers| - 1 ensures !Accepts(board, answers[k]) {
          assert answers[k] == rest[k - 1];
        }
        if |answers| < budget {
          assert answers[|answers| - 1] == rest[|rest| - 1];
        }
      } else {
        assert [raw][..0] == [] && excluded + [] == excluded;
      }
    }
  }

  /** The declarative description determines the run: Attempts is the only valid run. */
  lemma {:induction false} ValidRunIsAttempts(board: Board, ask: Asker,
                                              excluded: seq<string>, budget: nat, answers: seq<string>)
    requires ValidRun(board, ask, excluded, budget, answers)
    ensures answers == Attempts(board, ask, excluded, budget)
    decreases budget
  {
    if budget > 0 {
      assert |answers| > 0;
      assert answers[..0] == [] && excluded + [] == excluded;
      var raw := answers[0];
      assert raw == ask(excluded);
      if Accepts(board, raw) {
        assert |answers| == 1;
        assert answers == [raw];
      } else {
        var rest := answers[1..];
        assert answers == [raw] + rest;
        forall k | 0 <= k < |rest|
          ensures rest[k] == ask((excluded + [raw]) + rest[..k])
        {
          assert rest[k] == answers[k + 1];
          assert answers[..k + 1] == [raw] + rest[..k];
          assert excluded + answers[..k + 1] == (excluded + [raw]) + rest[..k];
        }
        forall k | 0 <= k < |rest| - 1 ensures !Accepts(board, rest[k]) {
          assert rest[k] == answers[k + 1];
        }
        if |rest| < budget - 1 {
          assert rest[|rest| - 1] == answers[|answers| - 1];
        }
        ValidRunIsAttempts(board, ask, excluded + [raw], budget - 1, rest);
      }
    }
  }

  /** The run so far extended by an accepted answer is a complete valid run. */
  lemma AcceptedRun(board: Board, ask: Asker, budget: nat,
                    excluded: seq<string>, raw: string)
    requires |excluded| < budget
    requires forall k :: 0 <= k < |excluded| ==>
      excluded[k] == ask([] + excluded[..k])
    requires forall k :: 0 <= k < |excluded| ==> !Accepts(board, excluded[k])
    requires raw == ask(excluded) && Accepts(board, raw)
    ensures ValidRun(board, ask, [], budget, excluded + [raw])
    ensures excluded + [raw] == Attempts(board, ask, [], budget)
  {
    var answers := excluded + [raw];
    assert answers[..|excluded|] == excluded;
    assert excluded + [] == excluded;
    forall k | 0 <= k < |answers|
      ensures answers[k] == ask([] + answers[..k])
    {
      if k < |excluded| {
        assert answers[..k] == excluded[..k];
      } else {
        assert [] + excluded == excluded;
      }
    }
    ValidRunIsAttempts(board, ask, [], budget, answers);
  }

  /** A rejected answer extends the run so far. */
  lemma RejectedStep(board: Board, ask: Asker,
                     excluded: seq<string>, raw: string)
    requires forall k :: 0 <= k < |excluded| ==>
      excluded[k] == ask([] + excluded[..k])
    requires raw == ask(excluded)
    ensures var next := excluded + [raw];
      forall k :: 0 <= k < |next| ==> next[k] == ask([] + next[..k])
  {
    var next := excluded + [raw];
    assert excluded + [] == excluded;
    assert next[..|excluded|] == excluded;
    forall k | 0 <= k < |next|
      ensures next[k] == ask([] + next[..k])
    {
      if k < |excluded| {
        assert next[..k] == excluded[..k];
      } else {
        assert [] + excluded == excluded;
      }
    }
  }

  /** A run that used up its budget with every answer rejected is a complete valid run. */
  lemma ExhaustedRun(board: Board, ask: Asker, budget: nat,
                     excluded: seq<string>)
    requires |excluded| == budget
    requires forall k :: 0 <= k < |excluded| ==>
      excluded[k] == ask([] + excluded[..k])
    requires forall k :: 0 <= k < |excluded| ==> !Accepts(board, excluded[k])
    ensures ValidRun(board, ask, [], budget, excluded)
    ensures excluded == Attempts(board, ask, [], budget)
    ensures !EndsAccepted(board, excluded)
  {
    ValidRunIsAttempts(board, ask, [], budget, excluded);
  }

  /** `safe_get_move` never calls the engine more than `max_retries` times, and not at all when that is not positive. */
  lemma CallBound(board: Board, engine: Provider, subModel: string, maxRetries: int)
    ensures |Answers(board, engine, subModel, maxRetries)| <= Budget(maxRetries)
    ensures maxRetries <= 0 ==> Answers(board, engine, subModel, maxRetries) == []
    ensures maxRetries > 0 ==> |Answers(board, engine, subModel, maxRetries)| >= 1
  {
    AttemptsAreValidRun(board, Ask(board, engine, subModel), [], Budget(maxRetries));
  }

  /** A run that did not end on an accepted answer used every attempt. */
  lemma ExhaustedRunUsesBudget(board: Board, engine: Provider, subModel: string, maxRetries: int)
    ensures !EndsAccepted(board, Answers(board, engine, subModel, maxRetries)) ==>
      |Answers(board, engine, subModel, maxRetries)| == Budget(maxRetries)
  {
    AttemptsAreValidRun(board, Ask(board, engine, subModel), [], Budget(maxRetries));
  }

  /** An engine whose first answer is legal is called exactly once, with nothing excluded. */
  lemma FirstAnswerAccepted(board: Board, engine: Provider, subModel: string, maxRetries: int)
    requires maxRetries >= 1
    requires Accepts(board, Strip(engine(board, subModel, [])))
    ensures Answers(board, engine, subModel, maxRetries) == [Strip(engine(board, subModel, []))]
  {
  }

  /**
   * An engine that keeps giving the same rejected answer is asked `budget` times,
   * and that answer is excluded once per rejection.
   */
  lemma {:induction false} RepeatedRejection(board: Board, ask: Asker, excluded: seq<string>,
                                             budget: nat, answer: string)
    requires forall ex :: ask(ex) == answer
    requires !Accepts(board, answer)
    ensures Attempts(board, ask, excluded, budget) == seq(budget, _ => answer)
    decreases budget
  {
    if budget > 0 {
      RepeatedRejection(board, ask, excluded + [answer], budget - 1, answer);
      assert seq(budget, _ => answer) == [answer] + seq(budget - 1, _ => answer);
    }
  }

  /** What each outcome tells the caller about the run and the position. */
  lemma PermittedOutcome(board: Board, answers: seq<string>, randomFallback: bool, r: Resolution)
    requires Permitted(board, answers, randomFallback, r)
    ensures r.Resolved? ==> r.move in board.legalMoves
    ensures r == Forfeit <==> !randomFallback && !EndsAccepted(board, answers)
    ensures r == ChoiceFailed <==>
      randomFallback && board.legalMoves == {} && !EndsAccepted(board, answers)
    ensures EndsAccepted(board, answers) ==>
      r == Resolved(Interpret(board, answers[|answers| - 1]).value)
  {
  }

  /**
   * `safe_get_move(board, engine_func, sub_model, turn, max_retries, random_fallback)`.
   * `answers` is the sequence of stripped answers the engine gave, one per call.
   */
  method SafeGetMove(board: Board, engine: Provider, subModel: string, maxRetries: int,
                     randomFallback: bool)
    returns (r: Resolution, ghost answers: seq<string>)
    ensures answers == Answers(board, engine, subModel, maxRetries)
    ensures ValidRun(board, Ask(board, engine, subModel), [], Budget(maxRetries), answers)
    ensures Permitted(board, answers, randomFallback, r)
    ensures r.Resolved? ==> r.move in board.legalMoves
    ensures r == Forfeit ==> !randomFallback
    ensures r == ChoiceFailed ==> randomFallback && board.legalMoves == {}
  {
    ghost var n := Budget(maxRetries);
    ghost var ask := Ask(board, engine, subModel);
    var excluded: seq<string> := [];
    var attempt := 0;
    while attempt < maxRetries
      invariant 0 <= attempt <= n
      invariant |excluded| == attempt
      invariant forall k :: 0 <= k < attempt ==>
        excluded[k] == ask([] + excluded[..k])
      invariant forall k :: 0 <= k < attempt ==> !Accepts(board, excluded[k])
    {
      var raw := Strip(engine(board, subModel, excluded));
      var move := Interpret(board, raw);
      if move.Some? && move.value in board.legalMoves {
        answers := excluded + [raw];
        r := Resolved(move.value);
        AcceptedRun(board, ask, n, excluded, raw);
        return;
      }
      RejectedStep(board, ask, excluded, raw);
      excluded := excluded + [raw];
      attempt := attempt + 1;
    }
    answers := excluded;
    ExhaustedRun(board, ask, n, excluded);
    if randomFallback {
      if board.legalMoves == {} {
        r := ChoiceFailed;
      } else {
        var m :| m in board.legalMoves;
        r := Resolved(m);
      }
    } else {
      r := Forfeit;
    }
  }
}

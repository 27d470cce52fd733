/**
 * The provider wrappers: the prompt they all send, the text they extract from each
 * backend's response, the strip applied to it, and the name-to-engine table.
 * The backends themselves (network clients) are parameters: each is a function from
 * (model name, prompt) to the response content the wrapper reads.
 */
module AiWrappers {
  import opened Options
  import opened Chess
  import opened PyText

  datatype Engine = OpenAI | Claude | DeepSeek | Gemini

  // ---------------------------------------------------------------------------
  // The prompt

  function ColorName(turn: Color): (name: string)
    ensures |name| == 5
    ensures name == "White" <==> turn == White
    ensures name == "Black" <==> turn == Black
  {
    assert "White"[0] == 'W' && "Black"[0] == 'B';
    match turn
    case White => "White"
    case Black => "Black"
  }

  const Intro := "You are a chess engine. It is "
  const FenIntro := "Given this FEN: "
  const FenOutro := ", return a legal best move in UCI format only.\n"
  const NoExplanations := "Do not return any explanations or additional text.\n"
  const ExclusionHeader := "Invalid or previously attempted moves that are NOT allowed:\n"
  const ExclusionFooter := "\nDo not return any of those moves, and do not return any illegal moves.\n"

  function TurnLine(turn: Color): (line: string) {
    Intro + ColorName(turn) + "'s turn.\n"
  }

  function FenLine(fen: string): (line: string) {
    FenIntro + fen + FenOutro
  }

  /** The three fixed lines: role and turn, the FEN with the UCI instruction, no explanations. */
  function BasePrompt(turn: Color, fen: string): (base: string) {
    TurnLine(turn) + FenLine(fen) + NoExplanations
  }

  /** The block listing the excluded moves, or nothing when the list is empty. */
  function ExclusionText(excluded: seq<string>): (text: string)
    ensures text == "" <==> excluded == []
  {
    if excluded == [] then "" else ExclusionHeader + ListRepr(excluded) + ExclusionFooter
  }

  /**
   * The prompt every wrapper sends. An absent exclusion list is the empty list.
   * The prompt starts with the three fixed lines and grows only when there is
   * something to exclude.
   */
  function BuildPrompt(turn: Color, fen: string, excluded: Option<seq<string>>): (prompt: string)
    ensures BasePrompt(turn, fen) <= prompt
    ensures |prompt| > |BasePrompt(turn, fen)| <==> excluded.GetOr([]) != []
  {
    BasePrompt(turn, fen) + ExclusionText(excluded.GetOr([]))
  }

  function BoardPrompt(board: Board, excluded: Option<seq<string>>): (prompt: string) {
    BuildPrompt(board.turn, board.fen, excluded)
  }

  // ---------------------------------------------------------------------------
  // Reading a prompt back

  /** The side a colour name stands for. */
  function NameColor(name: string): (turn: Option<Color>) {
    if name == "White" then Some(White)
    else if name == "Black" then Some(Black)
    else None
  }

  /** The side a prompt says is to move. */
  function PromptTurn(prompt: string): (turn: Option<Color>) {
    var k := |Intro|;
    if |prompt| < k + 5 || prompt[..k] != Intro then None
    else NameColor(prompt[k..k + 5])
  }

  /** The exclusion list in a prompt, given the prompt's fixed lines. */
  function PromptExclusions(base: string, prompt: string): (excluded: Option<seq<string>>) {
    if !(base <= prompt) then None
    else
      var block := prompt[|base|..];
      var h, f := |ExclusionHeader|, |ExclusionFooter|;
      if block == "" then Some([])
      else if |block| < h + f || block[..h] != ExclusionHeader || block[|block| - f..] != ExclusionFooter
      then None
      else DecodeList(block[h..|block| - f])
  }

  /** Where the first two pieces of a prompt-shaped concatenation sit. */
  lemma TurnSlices(intro: string, name: string, turnOutro: string, fenLine: string,
                    noExplanations: string, exclusions: string)
    ensures var p := ((((intro + name) + turnOutro) + fenLine) + noExplanations) + exclusions;
      |intro| + |name| <= |p| && p[..|intro|] == intro && p[|intro|..|intro| + |name|] == name
  {
    var p := ((((intro + name) + turnOutro) + fenLine) + noExplanations) + exclusions;
    assert p == (intro + name) + (turnOutro + fenLine + noExplanations + exclusions);
  }

  /** Where the FEN sits in a prompt-shaped concatenation. */
  lemma FenSlice(turnLine: string, fenIntro: string, fen: string, fenOutro: string,
                  noExplanations: string, exclusions: string)
    ensures var p := ((turnLine + ((fenIntro + fen) + fenOutro)) + noExplanations) + exclusions;
      |turnLine| + |fenIntro| + |fen| <= |p|
      && p[|turnLine| + |fenIntro|..|turnLine| + |fenIntro| + |fen|] == fen
  {
    var p := ((turnLine + ((fenIntro + fen) + fenOutro)) + noExplanations) + exclusions;
    assert p == (turnLine + fenIntro) + fen + (fenOutro + noExplanations + exclusions);
  }

  lemma PromptNamesTurn(turn: Color, fen: string, excluded: Option<seq<string>>)
    ensures PromptTurn(BuildPrompt(turn, fen, excluded)) == Some(turn)
  {
    TurnSlices(Intro, ColorName(turn), "'s turn.\n", FenLine(fen), NoExplanations,
               ExclusionText(excluded.GetOr([])));
  }

  lemma PromptWithoutExclusions(turn: Color, fen: string, excluded: Option<seq<string>>)
    requires excluded.GetOr([]) == []
    ensures BuildPrompt(turn, fen, excluded) == TurnLine(turn) + FenLine(fen) + NoExplanations
    ensures BuildPrompt(turn, fen, excluded) == BuildPrompt(turn, fen, None)
  {}

  /**
   * Concatenation regrouped, stated over parameters so that the long literal
   * constants of the prompt are not unfolded while it is proved.
   */
  lemma Assoc3(a: string, b: string, c: string, d: string)
    ensures a + b + c + d == a + (b + c + d)
  {}

  lemma PromptWithExclusions(turn: Color, fen: string, excluded: seq<string>)
    requires excluded != []
    ensures BuildPrompt(turn, fen, Some(excluded))
      == BasePrompt(turn, fen) + ExclusionHeader + ListRepr(excluded) + ExclusionFooter
  {
    Assoc3(BasePrompt(turn, fen), ExclusionHeader, ListRepr(excluded), ExclusionFooter);
  }

  /** The FEN stands verbatim on the second line, right after its introduction. */
  lemma PromptContainsFen(turn: Color, fen: string, excluded: Option<seq<string>>)
    ensures var k := |TurnLine(turn)| + |FenIntro|;
      BuildPrompt(turn, fen, excluded)[k..k + |fen|] == fen
  {
    FenSlice(TurnLine(turn), FenIntro, fen, FenOutro, NoExplanations,
             ExclusionText(excluded.GetOr([])));
  }

  /** The exclusion list can be read back from the prompt: entries verbatim, in order. */
  lemma PromptListsExclusions(turn: Color, fen: string, excluded: Option<seq<string>>)
    ensures PromptExclusions(BasePrompt(turn, fen), BuildPrompt(turn, fen, excluded))
      == Some(excluded.GetOr([]))
  {
    var base := BasePrompt(turn, fen);
    var x := excluded.GetOr([]);
    assert BuildPrompt(turn, fen, excluded)[|base|..] == ExclusionText(x);
    if x != [] {
      BlockSlices(ExclusionHeader, ListRepr(x), ExclusionFooter);
      ListReprRoundTrip(x);
    }
  }

  /** Where the three pieces of a header-body-footer block sit. */
  lemma BlockSlices(h: string, body: string, f: string)
    ensures var block := h + body + f;
      |h| + |f| <= |block| && block[..|h|] == h && block[|block| - |f|..] == f
      && block[|h|..|block| - |f|] == body
  {}

  /** Different exclusion lists give different prompts for the same position. */
  lemma PromptDeterminesExclusions(turn: Color, fen: string, xs: seq<string>, ys: seq<string>)
    requires BuildPrompt(turn, fen, Some(xs)) == BuildPrompt(turn, fen, Some(ys))
    ensures xs == ys
  {
    PromptListsExclusions(turn, fen, Some(xs));
    PromptListsExclusions(turn, fen, Some(ys));
  }

  // ---------------------------------------------------------------------------
  // Response text

  /** A content block of a Claude response: its `text`, or `str(block)` when it has none. */
  datatype Block = TextBlock(text: string) | OtherBlock(shown: string)

  /** A Claude response's content: a plain string or a list of blocks. */
  datatype Content = Str(s: string) | Blocks(blocks: seq<Block>)

  function BlockText(block: Block): (text: string) {
    match block
    case TextBlock(text) => text
    case OtherBlock(shown) => shown
  }

  /** `"".join(...)` over the blocks' texts. */
  function JoinBlocks(blocks: seq<Block>): (joined: string)
    ensures blocks == [] ==> joined == ""
  {
    if blocks == [] then "" else JoinBlocks(blocks[..|blocks| - 1]) + BlockText(blocks[|blocks| - 1])
  }

  /** Joining distributes over concatenation: block texts appear in order, none lost. */
  lemma {:induction false} JoinBlocksAppend(xs: seq<Block>, ys: seq<Block>)
    ensures JoinBlocks(xs + ys) == JoinBlocks(xs) + JoinBlocks(ys)
  {
    if ys != [] {
      var n := |ys| - 1;
      assert (xs + ys)[..|xs + ys| - 1] == xs + ys[..n];
      assert (xs + ys)[|xs + ys| - 1] == ys[n];
      JoinBlocksAppend(xs, ys[..n]);
    } else {
      assert xs + ys == xs;
    }
  }

  lemma JoinOneBlock(block: Block)
    ensures JoinBlocks([block]) == BlockText(block)
  {
    assert [block][..0] == [];
  }

  function ContentText(content: Content): (text: string) {
    match content
    case Str(s) => s
    case Blocks(blocks) => JoinBlocks(blocks)
  }

  /** The network side of the four wrappers, one function per backend. */
  datatype Backends = Backends(
    openAIChat: (string, string) -> string,
    claudeCreate: (string, string) -> Content,
    deepSeekChat: (string, string) -> string,
    geminiGenerate: (string, string) -> string)

  /** The text a wrapper reads from its backend's response to `prompt`. */
  function ResponseText(engine: Engine, backends: Backends, subModel: string, prompt: string): (text: string) {
    match engine
    case OpenAI => backends.openAIChat(subModel, prompt)
    case Claude => ContentText(backends.claudeCreate(subModel, prompt))
    case DeepSeek => backends.deepSeekChat(subModel, prompt)
    case Gemini => backends.geminiGenerate(subModel, prompt)
  }

  /**
   * `get_openai_move`, `get_claude_move`, `get_deepseek_move`, `get_gemini_move`:
   * all four send the same prompt and return the stripped response text, so what
   * they return has no edge whitespace and a further strip changes nothing.
   */
  function EngineMove(engine: Engine, backends: Backends, board: Board, subModel: string,
                      excluded: Option<seq<string>>): (raw: string)
    ensures Trimmed(raw)
    ensures Strip(raw) == raw
  {
    var text := ResponseText(engine, backends, subModel, BoardPrompt(board, excluded));
    StripMargins(text);
    StripIdempotent(text);
    Strip(text)
  }

  /** With a list of blocks, Claude's answer is the blocks' texts joined in order, then stripped. */
  lemma ClaudeJoinsBlocks(backends: Backends, board: Board, subModel: string,
                          excluded: Option<seq<string>>, blocks: seq<Block>)
    requires backends.claudeCreate(subModel, BoardPrompt(board, excluded)) == Blocks(blocks)
    ensures EngineMove(Claude, backends, board, subModel, excluded) == Strip(JoinBlocks(blocks))
  {}

  /** Backends that answer a prompt with the same text make the wrappers agree. */
  lemma WrappersShareThePrompt(e1: Engine, e2: Engine, backends: Backends, board: Board,
                               subModel: string, excluded: Option<seq<string>>)
    requires var p := BoardPrompt(board, excluded);
      ResponseText(e1, backends, subModel, p) == ResponseText(e2, backends, subModel, p)
    ensures EngineMove(e1, backends, board, subModel, excluded)
      == EngineMove(e2, backends, board, subModel, excluded)
  {}

  function EngineName(engine: Engine): (name: string) {
    match engine
    case OpenAI => "OpenAI"
    case Claude => "Claude"
    case DeepSeek => "DeepSeek"
    case Gemini => "Gemini"
  }

  /** `ENGINE_FUNCTIONS`: each engine under its own name, and nothing else. */
  function EngineFunctions(): (table: map<string, Engine>)
    ensures table.Keys == {"OpenAI", "Claude", "DeepSeek", "Gemini"}
    ensures forall e: Engine :: EngineName(e) in table && table[EngineName(e)] == e
  {
    map["OpenAI" := OpenAI, "Claude" := Claude, "DeepSeek" := DeepSeek, "Gemini" := Gemini]
  }

  /** The engine function main.py looks up: the wrapper with the list always present. */
  function EngineFunction(engine: Engine, backends: Backends): (provider: Provider)
    ensures forall board, subModel, excluded ::
      Trimmed(provider(board, subModel, excluded)) &&
      Strip(provider(board, subModel, excluded)) == provider(board, subModel, excluded)
  {
    (board: Board, subModel: string, excluded: seq<string>) =>
      EngineMove(engine, backends, board, subModel, Some(excluded))
  }
}

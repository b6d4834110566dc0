// Comments and string literals of a script, twice: as the places where they end, which is how the scan passes over
// them, and character by character. Proved: both say the same of every script.
module ScriptTokens {
  predicate IsQuote(c: char) {
    c == '"' || c == '\'' || c == '`'
  }

  // ---- Comments and string literals ----

  predicate LineCommentAt(s: string, i: nat) {
    i + 1 < |s| && s[i] == '/' && s[i + 1] == '/'
  }

  predicate BlockCommentAt(s: string, i: nat) {
    i + 1 < |s| && s[i] == '/' && s[i + 1] == '*'
  }

  // The end of the line.
  function LineEnd(s: string, i: nat): (e: nat)
    requires i <= |s|
    ensures i <= e <= |s|
    decreases |s| - i
  {
    if i == |s| || s[i] == '\n' then i else LineEnd(s, i + 1)
  }

  // The end of the comment, or of the text if it is not closed.
  function BlockEnd(s: string, i: nat): (e: nat)
    requires i <= |s|
    ensures i <= e <= |s|
    decreases |s| - i
  {
    if i == |s| then i
    else if s[i] == '*' && i + 1 < |s| && s[i + 1] == '/' then i + 2
    else BlockEnd(s, i + 1)
  }

  // The end of the literal, or of the text; a backslash takes the next character
  // with it.
  function QuoteEnd(s: string, i: nat, quote: char): (e: nat)
    requires i <= |s|
    ensures i <= e <= |s|
    decreases |s| - i
  {
    if i == |s| then i
    else if s[i] == '\\' then (if i + 1 == |s| then |s| else QuoteEnd(s, i + 2, quote))
    else if s[i] == quote then i + 1
    else QuoteEnd(s, i + 1, quote)
  }

  // The end of the comment or literal that starts at i; i itself if none does.
  function SkipTo(s: string, i: nat): (e: nat)
    requires i <= |s|
    ensures i <= e <= |s|
  {
    if LineCommentAt(s, i) then LineEnd(s, i + 2)
    else if BlockCommentAt(s, i) then BlockEnd(s, i + 2)
    else if i < |s| && IsQuote(s[i]) then QuoteEnd(s, i + 1, s[i])
    else i
  }

  // ---- Character by character ----

  // What a character belongs to. The first character of a comment and the opening
  // quote of a literal are still read as code.
  datatype Mode =
    | Code
    | LineOpen
    | Line
    | BlockOpen
    | Block
    | BlockClose
    | Literal(quote: char)
    | Escaped(quote: char)

  predicate PairAt(s: string, i: nat, first: char, second: char) {
    i + 1 < |s| && s[i] == first && s[i + 1] == second
  }

  // The mode of the character after the one at i, which is read in mode m.
  function NextMode(m: Mode, s: string, i: nat): Mode
    requires i < |s|
  {
    match m
    case Code =>
      if PairAt(s, i, '/', '/') then LineOpen
      else if PairAt(s, i, '/', '*') then BlockOpen
      else if s[i] == '"' || s[i] == '\'' || s[i] == '`' then Literal(s[i])
      else Code
    case LineOpen => if i + 1 < |s| && s[i + 1] == '\n' then Code else Line
    case Line => if i + 1 < |s| && s[i + 1] == '\n' then Code else Line
    case BlockOpen => Block
    case Block => if PairAt(s, i, '*', '/') then BlockClose else Block
    case BlockClose => Code
    case Literal(quote) =>
      if s[i] == '\\' then Escaped(quote) else if s[i] == quote then Code else Literal(quote)
    case Escaped(quote) => Literal(quote)
  }

  // The mode of the character at i when reading starts in code at `begin`.
  function ModeAt(s: string, begin: nat, i: nat): Mode
    requires begin <= i <= |s|
  {
    if i == begin then Code else NextMode(ModeAt(s, begin, i - 1), s, i - 1)
  }

  ghost predicate AllIn(s: string, begin: nat, i: nat, e: nat, comment: bool)
    requires begin <= i && e <= |s|
  {
    forall j :: i <= j < e ==>
      var m := ModeAt(s, begin, j);
      if comment then m.Block? || m.BlockClose? else m.Literal? || m.Escaped?
  }

  lemma {:induction false} LineModes(s: string, begin: nat, i: nat)
    requires begin <= i <= |s|
    requires ModeAt(s, begin, i) == if i < |s| && s[i] == '\n' then Code else Line
    ensures forall j :: i <= j < LineEnd(s, i) ==> ModeAt(s, begin, j) == Line
    ensures LineEnd(s, i) < |s| ==> ModeAt(s, begin, LineEnd(s, i)) == Code
    decreases |s| - i
  {
    if i < |s| && s[i] != '\n' {
      assert ModeAt(s, begin, i + 1) == NextMode(Line, s, i);
      LineModes(s, begin, i + 1);
    }
  }

  lemma {:induction false} BlockModes(s: string, begin: nat, i: nat)
    requires begin <= i <= |s| && ModeAt(s, begin, i) == Block
    ensures AllIn(s, begin, i, BlockEnd(s, i), true)
    ensures BlockEnd(s, i) < |s| ==> ModeAt(s, begin, BlockEnd(s, i)) == Code
    decreases |s| - i
  {
    if i < |s| {
      assert ModeAt(s, begin, i + 1) == NextMode(Block, s, i);
      if PairAt(s, i, '*', '/') {
        assert ModeAt(s, begin, i + 2) == NextMode(BlockClose, s, i + 1);
      } else {
        BlockModes(s, begin, i + 1);
      }
    }
  }

  lemma {:induction false} LiteralModes(s: string, begin: nat, i: nat, quote: char)
    requires begin <= i <= |s| && ModeAt(s, begin, i) == Literal(quote)
    ensures AllIn(s, begin, i, QuoteEnd(s, i, quote), false)
    ensures QuoteEnd(s, i, quote) < |s| ==> i < QuoteEnd(s, i, quote)
    ensures QuoteEnd(s, i, quote) < |s| ==> ModeAt(s, begin, QuoteEnd(s, i, quote)) == Code
    decreases |s| - i
  {
    if i < |s| {
      assert ModeAt(s, begin, i + 1) == NextMode(Literal(quote), s, i);
      if s[i] == '\\' {
        if i + 1 < |s| {
          assert ModeAt(s, begin, i + 2) == NextMode(Escaped(quote), s, i + 1);
          LiteralModes(s, begin, i + 2, quote);
        }
      } else if s[i] != quote {
        LiteralModes(s, begin, i + 1, quote);
      }
    }
  }

  // Main result: what the scan passes over in one step is exactly one comment or
  // literal, whose characters after the first are not code, or one character that
  // starts neither. Code goes on after it.
  lemma SkipIsOneToken(s: string, begin: nat, i: nat)
    requires begin <= i < |s| && ModeAt(s, begin, i) == Code
    ensures var e := if SkipTo(s, i) > i then SkipTo(s, i) else i + 1;
      && (forall j :: i < j < e ==> ModeAt(s, begin, j) != Code)
      && (e < |s| ==> ModeAt(s, begin, e) == Code)
    ensures SkipTo(s, i) > i <==> (PairAt(s, i, '/', '/') || PairAt(s, i, '/', '*') || IsQuote(s[i]))
  {
    assert ModeAt(s, begin, i + 1) == NextMode(Code, s, i);
    if PairAt(s, i, '/', '/') {
      assert ModeAt(s, begin, i + 2) == NextMode(LineOpen, s, i + 1);
      LineModes(s, begin, i + 2);
    } else if PairAt(s, i, '/', '*') {
      assert ModeAt(s, begin, i + 2) == NextMode(BlockOpen, s, i + 1);
      BlockModes(s, begin, i + 2);
    } else if IsQuote(s[i]) {
      LiteralModes(s, begin, i + 1, s[i]);
    }
  }

  // ---- Where a declaration ends ----

  // How many brackets are open in the code from `begin` to i.
  function Nesting(s: string, begin: nat, i: nat): int
    requires begin <= i <= |s|
  {
    if i == begin then 0
    else if ModeAt(s, begin, i - 1) != Code then Nesting(s, begin, i - 1)
    else if s[i - 1] == '{' || s[i - 1] == '(' || s[i - 1] == '[' then Nesting(s, begin, i - 1) + 1
    else if s[i - 1] == '}' || s[i - 1] == ')' || s[i - 1] == ']' then Nesting(s, begin, i - 1) - 1
    else Nesting(s, begin, i - 1)
  }

  // A semicolon or newline in code, outside all brackets opened since `begin`.
  predicate TerminatorAt(s: string, begin: nat, i: nat)
    requires begin <= i < |s|
  {
    ModeAt(s, begin, i) == Code && (s[i] == ';' || s[i] == '\n') && Nesting(s, begin, i) <= 0
  }

  // `e` is past the first terminator, or the end of the script if there is none.
  ghost predicate FirstEnd(s: string, begin: nat, e: nat) {
    && begin <= e <= |s|
    && (forall i :: begin <= i < e - 1 ==> !TerminatorAt(s, begin, i))
    && (e == |s| || (begin < e && TerminatorAt(s, begin, e - 1)))
  }

  lemma {:induction false} NestingFlat(s: string, begin: nat, i: nat, e: nat)
    requires begin <= i < e <= |s| && s[i] != '{' && s[i] != '(' && s[i] != '[' && s[i] != '}' && s[i] != ')'
    requires s[i] != ']' && forall j :: i < j < e ==> ModeAt(s, begin, j) != Code
    ensures Nesting(s, begin, e) == Nesting(s, begin, i)
    decreases e
  {
    if i + 1 < e { NestingFlat(s, begin, i, e - 1); }
  }

  // ---- Where a statement may start ----

  // Looking back from i over blanks and block comments, one meets `begin`, a
  // newline, a semicolon, a closing parenthesis or a line comment.
  predicate MayStart(s: string, begin: nat, i: nat)
    requires begin <= i <= |s|
  {
    i == begin ||
    match ModeAt(s, begin, i - 1)
    case Code =>
      var c := s[i - 1];
      if c == '\n' || c == ';' || c == ')' then true
      else (c == ' ' || c == '\t' || c == '\r' || PairAt(s, i - 1, '/', '*')) && MayStart(s, begin, i - 1)
    case LineOpen => true
    case Line => true
    case BlockOpen => MayStart(s, begin, i - 1)
    case Block => MayStart(s, begin, i - 1)
    case BlockClose => MayStart(s, begin, i - 1)
    case Literal(_) => false
    case Escaped(_) => false
  }

  lemma {:induction false} BlockKeepsStart(s: string, begin: nat, i: nat, e: nat)
    requires begin <= i <= e <= |s| && AllIn(s, begin, i, e, true)
    ensures MayStart(s, begin, e) == MayStart(s, begin, i)
    decreases e
  {
    if i < e { BlockKeepsStart(s, begin, i, e - 1); }
  }

  // What the token at i makes of the flag.
  predicate LeadsToStart(s: string, i: nat, flag: bool)
    requires i < |s|
  {
    if LineCommentAt(s, i) then true
    else if BlockCommentAt(s, i) then flag
    else if IsQuote(s[i]) then false
    else if s[i] == '\n' || s[i] == ';' || s[i] == ')' then true
    else (s[i] == ' ' || s[i] == '\t' || s[i] == '\r') && flag
  }

  // The flag the scan keeps says whether a statement may start.
  lemma StartAfterToken(s: string, begin: nat, i: nat)
    requires begin <= i < |s| && ModeAt(s, begin, i) == Code
    ensures var e := if SkipTo(s, i) > i then SkipTo(s, i) else i + 1;
      e < |s| ==> (MayStart(s, begin, e) <==> LeadsToStart(s, i, MayStart(s, begin, i)))
  {
    assert ModeAt(s, begin, i + 1) == NextMode(Code, s, i);
    if LineCommentAt(s, i) {
      assert ModeAt(s, begin, i + 2) == NextMode(LineOpen, s, i + 1);
      LineModes(s, begin, i + 2);
    } else if BlockCommentAt(s, i) {
      assert ModeAt(s, begin, i + 2) == NextMode(BlockOpen, s, i + 1);
      BlockModes(s, begin, i + 2);
      BlockKeepsStart(s, begin, i + 2, BlockEnd(s, i + 2));
      assert MayStart(s, begin, i + 2) == MayStart(s, begin, i + 1) == MayStart(s, begin, i);
    } else if IsQuote(s[i]) {
      LiteralModes(s, begin, i + 1, s[i]);
    }
  }
}

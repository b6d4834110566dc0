// Moving the import and export declarations of a script out of its body. The scan knows comments and string
// literals and takes a declaration only where a statement may start. All characters it looks for are ASCII, so the
// scan over bytes and this one over characters stop at the same places.
module ModuleSplitter {
  import opened ScriptTokens

  const IMPORT := "import"
  const EXPORT := "export"

  predicate IsIdent(c: char) {
    'a' <= c <= 'z' || 'A' <= c <= 'Z' || '0' <= c <= '9' || c == '_' || c == '$'
  }

  // ---- Declarations ----

  predicate Keyword(s: string, word: string) {
    && word <= s
    && !(|s| > |word| && IsIdent(s[|word|]))
    && !(word == IMPORT && |s| > |word| && s[|word|] == '(')
  }

  predicate Declares(s: string) {
    Keyword(s, IMPORT) || Keyword(s, EXPORT)
  }

  function Depth(c: char): int {
    if c == '{' || c == '(' || c == '[' then 1 else if c == '}' || c == ')' || c == ']' then -1 else 0
  }

  predicate Closes(c: char, depth: int) {
    (c == ';' || c == '\n') && depth <= 0
  }

  // The end of the declaration the scan is inside, past its semicolon or line end.
  function EndAt(s: string, i: nat, depth: int): (e: nat)
    requires i <= |s|
    ensures i <= e <= |s|
    decreases |s| - i
  {
    if i == |s| then i
    else if SkipTo(s, i) > i then EndAt(s, SkipTo(s, i), depth)
    else if Closes(s[i], depth) then i + 1
    else EndAt(s, i + 1, depth + Depth(s[i]))
  }

  function DeclarationLen(s: string): (n: nat)
    requires Declares(s)
    ensures 6 <= n <= |s|
  {
    EndAt(s, 6, 0)
  }

  // ---- The scan ----

  // What the scan passes over in one step where no declaration starts.
  function TokenLen(s: string): (n: nat)
    requires s != ""
    ensures 0 < n <= |s|
  {
    if SkipTo(s, 0) > 0 then SkipTo(s, 0) else 1
  }

  predicate Blank(c: char) {
    c == '\t' || c == '\r' || c == ' '
  }

  predicate Ends(c: char) {
    c == '\n' || c == ';' || c == ')'
  }

  // Whether a statement may start after that step.
  function FlagAfter(s: string, flag: bool): bool
    requires s != ""
  {
    if LineCommentAt(s, 0) then true
    else if BlockCommentAt(s, 0) then flag
    else if IsQuote(s[0]) then false
    else if Ends(s[0]) then true
    else Blank(s[0]) && flag
  }

  // The 25 characters of Unicode's White_Space property.
  predicate Space(c: char): (space: bool)
    ensures space <==> c as int in {
      9, 10, 11, 12, 13, 32, 133, 160, 5760, 8192, 8193, 8194, 8195, 8196, 8197, 8198, 8199, 8200, 8201, 8202,
      8232, 8233, 8239, 8287, 12288}
  {
    var u := c as int;
    9 <= u <= 13 || u == 32 || u == 0x85 || u == 0xA0 || u == 0x1680 || 0x2000 <= u <= 0x200A
    || u == 0x2028 || u == 0x2029 || u == 0x202F || u == 0x205F || u == 0x3000
  }

  function TrimStart(s: string): string {
    if s != "" && Space(s[0]) then TrimStart(s[1..]) else s
  }

  function TrimEnd(s: string): string {
    if s != "" && Space(s[|s| - 1]) then TrimEnd(s[..|s| - 1]) else s
  }

  function Trim(s: string): string {
    TrimEnd(TrimStart(s))
  }

  lemma {:induction false} TrimStartDrops(s: string) returns (a: nat)
    ensures a <= |s| && TrimStart(s) == s[a..] && (forall i :: 0 <= i < a ==> Space(s[i])) && (a < |s| ==> !Space(s[a]))
  {
    a := 0;
    if s != "" && Space(s[0]) {
      var b := TrimStartDrops(s[1..]);
      a := b + 1;
    }
  }

  lemma {:induction false} TrimEndDrops(s: string) returns (b: nat)
    ensures b <= |s| && TrimEnd(s) == s[..b] && forall i :: b <= i < |s| ==> Space(s[i])
    ensures b > 0 ==> !Space(s[b - 1])
  {
    b := |s|;
    if s != "" && Space(s[|s| - 1]) { b := TrimEndDrops(s[..|s| - 1]); }
  }

  // Trimming takes off exactly the white space at both ends.
  lemma TrimIsMiddle(s: string) returns (a: nat, b: nat)
    ensures a <= b <= |s| && Trim(s) == s[a..b]
    ensures forall i :: 0 <= i < |s| && !(a <= i < b) ==> Space(s[i])
    ensures a < b ==> !Space(s[a]) && !Space(s[b - 1])
  {
    a := TrimStartDrops(s);
    var n := TrimEndDrops(s[a..]);
    b := a + n;
    assert s[a..][..n] == s[a..b];
    assert forall i :: b <= i < |s| ==> s[i] == s[a..][i - a];
  }

  datatype Parts = Parts(head: string, rest: string)

  function Split(s: string, flag: bool): Parts
    decreases |s|
  {
    if s == "" then Parts("", "")
    else if flag && Declares(s) then
      var n := DeclarationLen(s);
      var after := Split(s[n..], true);
      Parts(Trim(s[..n]) + "\n" + after.head, after.rest)
    else
      var n := TokenLen(s);
      var after := Split(s[n..], FlagAfter(s, flag));
      Parts(after.head, s[..n] + after.rest)
  }

  // ---- The pieces of a script ----

  datatype Piece = Kept(text: string) | Hoisted(text: string)

  function Pieces(s: string, flag: bool): seq<Piece>
    decreases |s|
  {
    if s == "" then []
    else if flag && Declares(s) then [Hoisted(s[..DeclarationLen(s)])] + Pieces(s[DeclarationLen(s)..], true)
    else [Kept(s[..TokenLen(s)])] + Pieces(s[TokenLen(s)..], FlagAfter(s, flag))
  }

  function Whole(pieces: seq<Piece>): string {
    if pieces == [] then "" else pieces[0].text + Whole(pieces[1..])
  }

  // The script with the hoisted ranges deleted.
  function Remainder(pieces: seq<Piece>): string {
    if pieces == [] then ""
    else (if pieces[0].Kept? then pieces[0].text else "") + Remainder(pieces[1..])
  }

  // The hoisted ranges in order, trimmed, one per line.
  function Lines(pieces: seq<Piece>): string {
    if pieces == [] then ""
    else (if pieces[0].Hoisted? then Trim(pieces[0].text) + "\n" else "") + Lines(pieces[1..])
  }

  lemma PieceThenRest(s: string, n: nat, p: Piece, rest: seq<Piece>)
    requires n <= |s| && p.text == s[..n] && Whole(rest) == s[n..]
    ensures Whole([p] + rest) == s
  {
    assert ([p] + rest)[1..] == rest;
    assert s[..n] + s[n..] == s;
  }

  lemma Uncons(p: Piece, rest: seq<Piece>)
    ensures Remainder([p] + rest) == (if p.Kept? then p.text else "") + Remainder(rest)
    ensures Lines([p] + rest) == (if p.Hoisted? then Trim(p.text) + "\n" else "") + Lines(rest)
  {
    assert ([p] + rest)[1..] == rest;
  }

  // The pieces make up the script, so what is hoisted is disjoint and in order.
  lemma {:induction false} PiecesMakeUpScript(s: string, flag: bool)
    ensures Whole(Pieces(s, flag)) == s
    decreases |s|
  {
    if s == "" {
    } else if flag && Declares(s) {
      var n := DeclarationLen(s);
      PiecesMakeUpScript(s[n..], true);
      PieceThenRest(s, n, Hoisted(s[..n]), Pieces(s[n..], true));
    } else {
      var n := TokenLen(s);
      PiecesMakeUpScript(s[n..], FlagAfter(s, flag));
      PieceThenRest(s, n, Kept(s[..n]), Pieces(s[n..], FlagAfter(s, flag)));
    }
  }

  // Main result: the remainder is the script with exactly the hoisted pieces
  // deleted, and the head is those pieces, one per line.
  lemma {:induction false} SplitIsPartition(s: string, flag: bool)
    ensures Split(s, flag).head == Lines(Pieces(s, flag))
    ensures Split(s, flag).rest == Remainder(Pieces(s, flag))
    decreases |s|
  {
    if s != "" {
      var n := if flag && Declares(s) then DeclarationLen(s) else TokenLen(s);
      var after := if flag && Declares(s) then true else FlagAfter(s, flag);
      SplitIsPartition(s[n..], after);
      Uncons(Pieces(s, flag)[0], Pieces(s[n..], after));
    }
  }

  lemma HoistedDeclares(s: string)
    requires Declares(s)
    ensures Declares(s[..DeclarationLen(s)])
  {
    if |s| > 6 { assert DeclarationLen(s) > 6 && s[..DeclarationLen(s)][6] == s[6]; }
  }

  // Every hoisted range begins with a declaration's keyword.
  lemma {:induction false} OnlyDeclarationsHoisted(s: string, flag: bool, k: nat)
    requires k < |Pieces(s, flag)| && Pieces(s, flag)[k].Hoisted?
    ensures Declares(Pieces(s, flag)[k].text)
    decreases |s|
  {
    if flag && Declares(s) {
      if k == 0 { HoistedDeclares(s); } else { OnlyDeclarationsHoisted(s[DeclarationLen(s)..], true, k - 1); }
    } else if k > 0 {
      OnlyDeclarationsHoisted(s[TokenLen(s)..], FlagAfter(s, flag), k - 1);
    }
  }

  // A script in which nothing is hoisted is its own remainder, with no head.
  lemma {:induction false} NothingHoisted(pieces: seq<Piece>)
    requires forall k :: 0 <= k < |pieces| ==> pieces[k].Kept?
    ensures Remainder(pieces) == Whole(pieces) && Lines(pieces) == ""
  {
    if pieces != [] { NothingHoisted(pieces[1..]); }
  }

  // ---- Splitting the remainder again ----

  function Rest(s: string, flag: bool): string {
    Split(s, flag).rest
  }

  // Where no declaration starts, the remainder starts with the same character.
  lemma HeadKept(s: string, flag: bool)
    requires s != "" && !(flag && Declares(s))
    ensures Rest(s, flag) != "" && Rest(s, flag)[0] == s[0]
  {
    assert Rest(s, flag) == s[..TokenLen(s)] + Rest(s[TokenLen(s)..], FlagAfter(s, flag));
  }

  predicate Letter(c: char) {
    'a' <= c <= 'z'
  }

  // A word of letters is passed over one by one, whatever follows it.
  lemma {:induction false} WordKept(s: string, word: string)
    requires forall k :: 0 <= k < |word| ==> Letter(word[k])
    ensures word <= Rest(s, false) <==> word <= s
    ensures word <= s ==> (|Rest(s, false)| > |word| <==> |s| > |word|)
    ensures word <= s && |s| > |word| ==> Rest(s, false)[|word|] == s[|word|]
    decreases |word|
  {
    if s != "" { HeadKept(s, false); }
    if s != "" && word != "" && s[0] == word[0] {
      var r := Rest(s[1..], false);
      assert Rest(s, false) == [s[0]] + r;
      WordKept(s[1..], word[1..]);
      ConsPrefix(s, word);
      ConsPrefix([s[0]] + r, word);
      assert ([s[0]] + r)[1..] == r;
    }
  }

  lemma ConsPrefix(s: string, word: string)
    requires s != "" && word != "" && s[0] == word[0]
    ensures word <= s <==> word[1..] <= s[1..]
  {
    if word[1..] <= s[1..] {
      assert word == [word[0]] + word[1..] && s == [s[0]] + s[1..];
    }
  }

  // Deleting declarations further on does not make one of a start that was none.
  lemma KeywordKept(s: string, word: string)
    requires s != "" && word in {IMPORT, EXPORT} && TokenLen(s) == 1 && Letter(s[0])
    ensures Keyword([s[0]] + Rest(s[1..], false), word) <==> Keyword(s, word)
  {
    var r := [s[0]] + Rest(s[1..], false);
    if s[0] == word[0] {
      WordKept(s[1..], word[1..]);
      ConsPrefix(s, word);
      ConsPrefix(r, word);
      assert r[1..] == Rest(s[1..], false);
    }
  }

  // What the scan passes over is recognised from its own text.
  lemma {:induction false} LineEndKept(s: string, i: nat, n: nat, r: string)
    requires i <= n <= |s| && LineEnd(s, i) == n && (r == "" || r[0] == '\n')
    ensures LineEnd(s[..n] + r, i) == n
    decreases n - i
  {
    if i < n { LineEndKept(s, i + 1, n, r); }
  }

  lemma {:induction false} BlockEndKept(s: string, i: nat, n: nat, r: string)
    requires i <= n < |s| && BlockEnd(s, i) == n
    ensures BlockEnd(s[..n] + r, i) == n
    decreases n - i
  {
    if !(s[i] == '*' && s[i + 1] == '/') { BlockEndKept(s, i + 1, n, r); }
  }

  lemma {:induction false} QuoteEndKept(s: string, i: nat, n: nat, quote: char, r: string)
    requires i <= n < |s| && QuoteEnd(s, i, quote) == n
    ensures QuoteEnd(s[..n] + r, i, quote) == n
    decreases n - i
  {
    if s[i] == '\\' {
      QuoteEndKept(s, i + 2, n, quote, r);
    } else if s[i] != quote {
      QuoteEndKept(s, i + 1, n, quote, r);
    }
  }

  predicate SameKind(a: string, b: string)
    requires a != "" && b != ""
  {
    a[0] == b[0] && (LineCommentAt(a, 0) <==> LineCommentAt(b, 0)) && (BlockCommentAt(a, 0) <==> BlockCommentAt(b, 0))
  }

  lemma SkipKept(s: string, r: string)
    requires 0 < SkipTo(s, 0) < |s| && (LineCommentAt(s, 0) ==> r == "" || r[0] == '\n')
    ensures SameKind(s[..SkipTo(s, 0)] + r, s) && SkipTo(s[..SkipTo(s, 0)] + r, 0) == SkipTo(s, 0)
  {
    var n := SkipTo(s, 0);
    if LineCommentAt(s, 0) {
      LineEndKept(s, 2, n, r);
    } else if BlockCommentAt(s, 0) {
      BlockEndKept(s, 2, n, r);
    } else {
      QuoteEndKept(s, 1, n, s[0], r);
    }
  }

  lemma {:induction false} LineEndsAtNewline(s: string, i: nat)
    requires i <= |s| && LineEnd(s, i) < |s|
    ensures s[LineEnd(s, i)] == '\n'
    decreases |s| - i
  {
    if s[i] != '\n' { LineEndsAtNewline(s, i + 1); }
  }

  lemma SingleKept(s: string, r: string)
    requires s != "" && SkipTo(s, 0) == 0
    requires s[0] == '/' ==> (r == "" <==> |s| == 1) && (r != "" ==> r[0] == s[1])
    ensures SameKind([s[0]] + r, s) && SkipTo([s[0]] + r, 0) == 0
  {
  }

  // The remainder from s on starts with the token that s starts with.
  lemma TokenKept(s: string, flag: bool)
    requires s != "" && !(flag && Declares(s))
    ensures Rest(s, flag) != "" && SameKind(Rest(s, flag), s) && TokenLen(Rest(s, flag)) == TokenLen(s)
  {
    var n := TokenLen(s);
    var after := FlagAfter(s, flag);
    if n == |s| {
      assert Rest(s[n..], after) == "";
      assert s[..n] + "" == s;
    } else if SkipTo(s, 0) > 0 {
      if LineCommentAt(s, 0) {
        LineEndsAtNewline(s, 2);
        HeadKept(s[n..], after);
      }
      SkipKept(s, Rest(s[n..], after));
    } else {
      if s[0] == '/' { HeadKept(s[1..], after); }
      SingleKept(s, Rest(s[1..], after));
    }
  }

  lemma NoNewDeclaration(s: string)
    requires s != "" && !Declares(s)
    ensures !Declares(Rest(s, true))
  {
    HeadKept(s, true);
    if Letter(s[0]) {
      assert Rest(s, true) == [s[0]] + Rest(s[1..], false);
      KeywordKept(s, IMPORT);
      KeywordKept(s, EXPORT);
    }
  }

  // Main result: nothing is left to hoist, so splitting the remainder again
  // changes nothing.
  lemma {:induction false} SplitTwice(s: string, flag: bool)
    ensures Split(Split(s, flag).rest, flag) == Parts("", Split(s, flag).rest)
    decreases |s|
  {
    if s == "" {
    } else if flag && Declares(s) {
      SplitTwice(s[DeclarationLen(s)..], true);
    } else {
      var n, after := TokenLen(s), FlagAfter(s, flag);
      SplitTwice(s[n..], after);
      TokenKept(s, flag);
      if flag { NoNewDeclaration(s); }
      var r := Rest(s, flag);
      assert r[n..] == Rest(s[n..], after) && r[..n] == s[..n];
    }
  }

  // ---- The scan as written ----

  // An index may run past the end by one or two.
  function Clamped(code: string, i: nat): nat {
    if i <= |code| then i else |code|
  }

  method SkipLine(code: string, from: nat) returns (i: nat)
    requires from <= |code|
    ensures i == LineEnd(code, from)
  {
    i := from;
    while i < |code| && code[i] != '\n'
      invariant from <= i <= |code| && LineEnd(code, i) == LineEnd(code, from)
    {
      i := i + 1;
    }
  }

  // May end past the text if the comment is not closed.
  method SkipBlock(code: string, from: nat) returns (i: nat)
    requires from <= |code|
    ensures Clamped(code, i) == BlockEnd(code, from)
  {
    i := from;
    while i < |code| && !(code[i] == '*' && i + 1 < |code| && code[i + 1] == '/')
      invariant from <= i <= |code| && BlockEnd(code, i) == BlockEnd(code, from)
    {
      i := i + 1;
    }
    i := i + 2;
  }

  // May end past the text if its last character is a backslash.
  method SkipQuoted(code: string, from: nat, quote: char) returns (i: nat)
    requires from <= |code|
    ensures Clamped(code, i) == QuoteEnd(code, from, quote)
  {
    i := from;
    while i < |code|
      invariant from <= i && QuoteEnd(code, Clamped(code, i), quote) == QuoteEnd(code, from, quote)
      decreases |code| + 2 - i
    {
      if code[i] == '\\' {
        i := i + 2;
      } else {
        var closed := code[i] == quote;
        i := i + 1;
        if closed {
          return;
        }
      }
    }
  }

  // Past the comment or literal at i, if there is one.
  method SkipAt(code: string, i: nat) returns (skipped: bool, to: nat)
    requires i < |code|
    ensures skipped == (SkipTo(code, i) > i) && Clamped(code, to) == SkipTo(code, i) && i <= to
  {
    skipped := true;
    if code[i] == '/' && i + 1 < |code| && code[i + 1] == '/' {
      to := SkipLine(code, i + 2);
    } else if code[i] == '/' && i + 1 < |code| && code[i + 1] == '*' {
      to := SkipBlock(code, i + 2);
    } else if IsQuote(code[i]) {
      to := SkipQuoted(code, i + 1, code[i]);
    } else {
      skipped, to := false, i;
    }
  }

  lemma EndAtSteps(s: string, i: nat, depth: int)
    requires i < |s|
    ensures SkipTo(s, i) > i ==> EndAt(s, i, depth) == EndAt(s, SkipTo(s, i), depth)
    ensures SkipTo(s, i) == i && Closes(s[i], depth) ==> EndAt(s, i, depth) == i + 1
    ensures SkipTo(s, i) == i && !Closes(s[i], depth) ==> EndAt(s, i, depth) == EndAt(s, i + 1, depth + Depth(s[i]))
  {
  }

  // No terminator stands in a comment or literal, and no bracket in it counts.
  lemma TokenEndsNothing(s: string, begin: nat, i: nat)
    requires begin <= i < |s| && ModeAt(s, begin, i) == Code && SkipTo(s, i) > i
    ensures forall j :: i <= j < SkipTo(s, i) ==> !TerminatorAt(s, begin, j)
    ensures Nesting(s, begin, SkipTo(s, i)) == Nesting(s, begin, i)
  {
    SkipIsOneToken(s, begin, i);
    NestingFlat(s, begin, i, SkipTo(s, i));
  }

  lemma CharInCode(s: string, begin: nat, i: nat)
    requires begin <= i < |s| && ModeAt(s, begin, i) == Code
    ensures TerminatorAt(s, begin, i) <==> Closes(s[i], Nesting(s, begin, i))
    ensures Nesting(s, begin, i + 1) == Nesting(s, begin, i) + Depth(s[i])
  {
  }

  lemma CodeGoesOn(s: string, begin: nat, i: nat)
    requires begin <= i < |s| && ModeAt(s, begin, i) == Code
    ensures var e := if SkipTo(s, i) > i then SkipTo(s, i) else i + 1; e < |s| ==> ModeAt(s, begin, e) == Code
  {
    SkipIsOneToken(s, begin, i);
  }

  // The rest of the declaration, from i on, ends where the first terminator does.
  lemma {:induction false} EndIsFirst(s: string, begin: nat, i: nat, depth: int)
    requires begin <= i <= |s| && (i < |s| ==> ModeAt(s, begin, i) == Code) && depth == Nesting(s, begin, i)
    requires forall j :: begin <= j < i ==> !TerminatorAt(s, begin, j)
    ensures FirstEnd(s, begin, EndAt(s, i, depth))
    decreases |s| - i
  {
    if i < |s| {
      EndAtSteps(s, i, depth);
      CharInCode(s, begin, i);
      CodeGoesOn(s, begin, i);
      if SkipTo(s, i) > i {
        TokenEndsNothing(s, begin, i);
        EndIsFirst(s, begin, SkipTo(s, i), depth);
      } else if !Closes(s[i], depth) {
        EndIsFirst(s, begin, i + 1, depth + Depth(s[i]));
      }
    }
  }

  method DeclarationEnd(code: string, from: nat) returns (end: nat)
    requires from <= |code|
    ensures end == EndAt(code, from, 0)
    ensures FirstEnd(code, from, end)
  {
    EndIsFirst(code, from, from, 0);
    var i, depth := from, 0;
    while i < |code|
      invariant from <= i && EndAt(code, Clamped(code, i), depth) == EndAt(code, from, 0)
      decreases |code| - i
    {
      EndAtSteps(code, i, depth);
      var skipped, to := SkipAt(code, i);
      if skipped {
        i := to;
      } else if Closes(code[i], depth) {
        return i + 1;
      } else {
        depth, i := depth + Depth(code[i]), i + 1;
      }
    }
    end := |code|;
  }

  // ---- A text and the rest of it end things at the same places ----

  lemma {:induction false} LineEndShifts(code: string, i: nat, j: nat)
    requires i + j <= |code|
    ensures LineEnd(code, i + j) == i + LineEnd(code[i..], j)
    decreases |code| - j
  {
    if i + j < |code| && code[i + j] != '\n' { LineEndShifts(code, i, j + 1); }
  }

  lemma {:induction false} BlockEndShifts(code: string, i: nat, j: nat)
    requires i + j <= |code|
    ensures BlockEnd(code, i + j) == i + BlockEnd(code[i..], j)
    decreases |code| - j
  {
    if i + j < |code| && !(code[i + j] == '*' && i + j + 1 < |code| && code[i + j + 1] == '/') {
      BlockEndShifts(code, i, j + 1);
    }
  }

  lemma {:induction false} QuoteEndShifts(code: string, i: nat, j: nat, quote: char)
    requires i + j <= |code|
    ensures QuoteEnd(code, i + j, quote) == i + QuoteEnd(code[i..], j, quote)
    decreases |code| - j
  {
    if i + j < |code| {
      if code[i + j] == '\\' {
        if i + j + 2 <= |code| { QuoteEndShifts(code, i, j + 2, quote); }
      } else if code[i + j] != quote {
        QuoteEndShifts(code, i, j + 1, quote);
      }
    }
  }

  lemma SkipShifts(code: string, i: nat, j: nat)
    requires i + j <= |code|
    ensures SkipTo(code, i + j) == i + SkipTo(code[i..], j)
  {
    if LineCommentAt(code, i + j) {
      LineEndShifts(code, i, j + 2);
    } else if BlockCommentAt(code, i + j) {
      BlockEndShifts(code, i, j + 2);
    } else if i + j < |code| && IsQuote(code[i + j]) {
      QuoteEndShifts(code, i, j + 1, code[i + j]);
    }
  }

  lemma EndShiftsAfterSkip(code: string, i: nat, j: nat, k: nat, depth: int)
    requires i + j < |code| && j < k <= |code| - i && SkipTo(code[i..], j) == k && SkipTo(code, i + j) == i + k
    requires EndAt(code, i + k, depth) == i + EndAt(code[i..], k, depth)
    ensures EndAt(code, i + j, depth) == i + EndAt(code[i..], j, depth)
  {
    EndAtSteps(code, i + j, depth);
    EndAtSteps(code[i..], j, depth);
  }

  lemma EndShiftsAfterChar(code: string, i: nat, j: nat, depth: int)
    requires i + j < |code| && SkipTo(code[i..], j) == j && SkipTo(code, i + j) == i + j
    requires var d := depth + Depth(code[i + j]); EndAt(code, i + (j + 1), d) == i + EndAt(code[i..], j + 1, d)
    ensures EndAt(code, i + j, depth) == i + EndAt(code[i..], j, depth)
  {
    EndAtSteps(code, i + j, depth);
    EndAtSteps(code[i..], j, depth);
    assert code[i..][j] == code[i + j];
  }

  lemma {:induction false} EndShifts(code: string, i: nat, j: nat, depth: int)
    requires i + j <= |code|
    ensures EndAt(code, i + j, depth) == i + EndAt(code[i..], j, depth)
    decreases |code| - j
  {
    var k := SkipTo(code[i..], j);
    SkipShifts(code, i, j);
    if i + j == |code| {
    } else if k > j {
      EndShifts(code, i, k, depth);
      EndShiftsAfterSkip(code, i, j, k, depth);
    } else {
      EndShifts(code, i, j + 1, depth + Depth(code[i + j]));
      EndShiftsAfterChar(code, i, j, depth);
    }
  }

  // ---- The splitter ----

  // `head` and `kept` are what the scan has produced so far, `ahead` what it will.
  predicate SplitSoFar(whole: Parts, head: string, kept: string, ahead: Parts) {
    whole.head == head + ahead.head && whole.rest == kept + ahead.rest
  }

  lemma Regroup(a: string, b: string, c: string)
    ensures a + (b + c) == a + b + c
  {
  }

  lemma PassKeepsSplit(whole: Parts, head: string, kept: string, s: string, flag: bool, token: string, tail: string)
    requires s != "" && !(flag && Declares(s)) && SplitSoFar(whole, head, kept, Split(s, flag))
    requires token == s[..TokenLen(s)] && tail == s[TokenLen(s)..]
    ensures SplitSoFar(whole, head, kept + token, Split(tail, FlagAfter(s, flag)))
  {
    Regroup(kept, token, Split(tail, FlagAfter(s, flag)).rest);
  }

  lemma HoistKeepsSplit(whole: Parts, head: string, kept: string, s: string, declaration: string, tail: string)
    requires s != "" && Declares(s) && SplitSoFar(whole, head, kept, Split(s, true))
    requires declaration == s[..DeclarationLen(s)] && tail == s[DeclarationLen(s)..]
    ensures SplitSoFar(whole, head + Trim(declaration) + "\n", kept, Split(tail, true))
  {
    Regroup(head, Trim(declaration) + "\n", Split(tail, true).head);
    Regroup(head, Trim(declaration), "\n");
  }

  lemma SliceParts(code: string, i: nat, n: nat)
    requires i + n <= |code|
    ensures code[i..][..n] == code[i..i + n] && code[i..][n..] == code[i + n..]
  {
  }

  // Whether the word starts a declaration at i.
  method StartsDeclaration(code: string, i: nat, word: string) returns (yes: bool)
    requires i <= |code|
    ensures yes == Keyword(code[i..], word)
  {
    if i + |word| > |code| || code[i..i + |word|] != word {
      assert !(word <= code[i..]);
      return false;
    }
    assert word <= code[i..];
    var end := i + |word|;
    var dynamicImport := word == IMPORT && end < |code| && code[end] == '(';
    yes := !(end < |code| && IsIdent(code[end])) && !dynamicImport;
  }

  lemma PassMovesOn(code: string, i: nat, flag: bool, head: string, rest: string, copyFrom: nat, whole: Parts)
    requires copyFrom <= i < |code| && !(flag && Declares(code[i..]))
    requires SplitSoFar(whole, head, rest + code[copyFrom..i], Split(code[i..], flag))
    ensures var to := i + TokenLen(code[i..]);
      SplitSoFar(whole, head, rest + code[copyFrom..to], Split(code[to..], FlagAfter(code[i..], flag)))
  {
    var to := i + TokenLen(code[i..]);
    SliceParts(code, i, TokenLen(code[i..]));
    PassKeepsSplit(whole, head, rest + code[copyFrom..i], code[i..], flag, code[i..to], code[to..]);
    Regroup(rest, code[copyFrom..i], code[i..to]);
    assert code[copyFrom..i] + code[i..to] == code[copyFrom..to];
  }

  lemma NothingAdded(kept: string, code: string, i: nat)
    requires i <= |code|
    ensures kept + code[i..i] == kept
  {
  }

  lemma HoistMovesOn(code: string, i: nat, to: nat, head: string, rest: string, copyFrom: nat, whole: Parts)
    requires copyFrom <= i < |code| && Declares(code[i..]) && to == i + DeclarationLen(code[i..])
    requires SplitSoFar(whole, head, rest + code[copyFrom..i], Split(code[i..], true))
    ensures SplitSoFar(whole, head + Trim(code[i..to]) + "\n", rest + code[copyFrom..i] + code[to..to],
      Split(code[to..], true))
  {
    SliceParts(code, i, to - i);
    HoistKeepsSplit(whole, head, rest + code[copyFrom..i], code[i..], code[i..to], code[to..]);
    NothingAdded(rest + code[copyFrom..i], code, to);
  }

  function NextAt(code: string, i: nat): nat
    requires i < |code|
  {
    if SkipTo(code, i) > i then SkipTo(code, i) else i + 1
  }

  function FlagAt(code: string, i: nat, flag: bool): bool
    requires i < |code|
  {
    if LineCommentAt(code, i) then true
    else if BlockCommentAt(code, i) then flag
    else if IsQuote(code[i]) then false
    else if Ends(code[i]) then true
    else Blank(code[i]) && flag
  }

  lemma TokenAt(code: string, i: nat, flag: bool)
    requires i < |code|
    ensures i + TokenLen(code[i..]) == NextAt(code, i) && FlagAfter(code[i..], flag) == FlagAt(code, i, flag)
    ensures Declares(code[i..]) ==> code[i] == 'i' || code[i] == 'e'
  {
    SkipShifts(code, i, 0);
    assert code[i..][0] == code[i];
    assert i + 1 < |code| ==> code[i..][1] == code[i + 1];
  }

  lemma DeclarationAt(code: string, i: nat)
    requires i <= |code| && Declares(code[i..])
    ensures i + 6 <= |code| && EndAt(code, i + 6, 0) == i + DeclarationLen(code[i..])
  {
    EndShifts(code, i, 6, 0);
  }

  // ---- What is hoisted, character by character ----

  // `import` or `export` as a whole word, a call of `import` left out.
  predicate DeclaresAt(s: string, i: nat)
    requires i <= |s|
  {
    && i + 6 <= |s| && s[i..i + 6] in {"import", "export"}
    && (i + 6 < |s| ==> !IsIdent(s[i + 6]) && (s[i + 6] == '(' ==> s[i] == 'e'))
  }

  // The characters of a word are the ASCII letters, digits, `_` and `$`.
  lemma IdentExactly(c: char)
    ensures IsIdent(c) <==>
      48 <= c as int <= 57 || 65 <= c as int <= 90 || 97 <= c as int <= 122 || c as int == 95 || c as int == 36
  {
    assert '0' as int == 48 && 'A' as int == 65 && 'a' as int == 97 && '_' as int == 95 && '$' as int == 36;
  }

  lemma DeclaresThere(s: string, i: nat)
    requires i <= |s|
    ensures Declares(s[i..]) <==> DeclaresAt(s, i)
  {
    if i + 6 <= |s| {
      assert s[i..][..6] == s[i..i + 6];
      assert IMPORT <= s[i..] <==> s[i..i + 6] == IMPORT;
      assert EXPORT <= s[i..] <==> s[i..i + 6] == EXPORT;
    }
  }

  // From i on, in code read from `begin`, a piece is hoisted exactly where a
  // statement may start and a declaring word stands; it ends at the first
  // terminator, and reading starts afresh behind it. Any other piece is one
  // comment, literal or character.
  ghost predicate HoistsExactly(s: string, begin: nat, i: nat, pieces: seq<Piece>)
    requires begin <= i <= |s|
    decreases pieces
  {
    if pieces == [] then i == |s| else
      var e := i + |pieces[0].text|;
      && i < e <= |s| && pieces[0].text == s[i..e] && ModeAt(s, begin, i) == Code
      && (pieces[0].Hoisted? <==> MayStart(s, begin, i) && DeclaresAt(s, i))
      && if pieces[0].Hoisted? then FirstEnd(s, i + 6, e) && HoistsExactly(s, e, e, pieces[1..])
        else (forall j :: i < j < e ==> ModeAt(s, begin, j) != Code) && HoistsExactly(s, begin, e, pieces[1..])
  }

  lemma HoistsPiece(s: string, begin: nat, i: nat, e: nat, p: Piece, rest: seq<Piece>)
    requires begin <= i < e <= |s| && p == Hoisted(s[i..e])
    requires ModeAt(s, begin, i) == Code && MayStart(s, begin, i) && DeclaresAt(s, i)
    requires FirstEnd(s, i + 6, e) && HoistsExactly(s, e, e, rest)
    ensures HoistsExactly(s, begin, i, [p] + rest)
  {
    assert ([p] + rest)[0] == p && ([p] + rest)[1..] == rest;
  }

  lemma KeepsPiece(s: string, begin: nat, i: nat, e: nat, p: Piece, rest: seq<Piece>)
    requires begin <= i < e <= |s| && p == Kept(s[i..e])
    requires ModeAt(s, begin, i) == Code && !(MayStart(s, begin, i) && DeclaresAt(s, i))
    requires (forall j :: i < j < e ==> ModeAt(s, begin, j) != Code) && HoistsExactly(s, begin, e, rest)
    ensures HoistsExactly(s, begin, i, [p] + rest)
  {
    assert ([p] + rest)[0] == p && ([p] + rest)[1..] == rest;
  }

  lemma EndsThere(s: string, i: nat)
    requires i <= |s| && Declares(s[i..])
    ensures var e := i + DeclarationLen(s[i..]); i + 6 <= e <= |s| && FirstEnd(s, i + 6, e)
  {
    DeclarationAt(s, i);
    EndIsFirst(s, i + 6, i + 6, 0);
  }

  lemma HoistHead(t: string, head: string, tail: string)
    requires t != "" && Declares(t) && head == t[..DeclarationLen(t)] && tail == t[DeclarationLen(t)..]
    ensures Pieces(t, true) == [Hoisted(head)] + Pieces(tail, true)
  {
  }

  lemma KeepHead(t: string, flag: bool, head: string, tail: string, after: bool)
    requires t != "" && !(flag && Declares(t)) && head == t[..TokenLen(t)] && tail == t[TokenLen(t)..]
    requires after == FlagAfter(t, flag)
    ensures Pieces(t, flag) == [Kept(head)] + Pieces(tail, after)
  {
  }

  lemma HoistsOne(s: string, begin: nat, i: nat, e: nat)
    requires begin <= i < |s| && ModeAt(s, begin, i) == Code && MayStart(s, begin, i)
    requires Declares(s[i..]) && e == i + DeclarationLen(s[i..]) <= |s|
    requires FirstEnd(s, i + 6, e) && HoistsExactly(s, e, e, Pieces(s[e..], true))
    ensures HoistsExactly(s, begin, i, Pieces(s[i..], true))
  {
    DeclaresThere(s, i);
    HoistsPiece(s, begin, i, e, Hoisted(s[i..e]), Pieces(s[e..], true));
    assert Pieces(s[i..], true) == [Hoisted(s[i..e])] + Pieces(s[e..], true) by {
      SliceParts(s, i, e - i);
      HoistHead(s[i..], s[i..e], s[e..]);
    }
  }

  lemma KeepsOne(s: string, begin: nat, i: nat, flag: bool, e: nat, after: bool)
    requires begin <= i < e <= |s| && ModeAt(s, begin, i) == Code && flag == MayStart(s, begin, i)
    requires e == NextAt(s, i) && after == FlagAt(s, i, flag) && forall j :: i < j < e ==> ModeAt(s, begin, j) != Code
    requires !(flag && Declares(s[i..])) && HoistsExactly(s, begin, e, Pieces(s[e..], after))
    ensures HoistsExactly(s, begin, i, Pieces(s[i..], flag))
  {
    KeepsPiece(s, begin, i, e, Kept(s[i..e]), Pieces(s[e..], after)) by {
      DeclaresThere(s, i);
    }
    assert Pieces(s[i..], flag) == [Kept(s[i..e])] + Pieces(s[e..], after) by {
      TokenAt(s, i, flag);
      SliceParts(s, i, e - i);
      KeepHead(s[i..], flag, s[i..e], s[e..], after);
    }
  }

  // The scan's token at i and its flag, in terms of the characters.
  lemma NextInCode(s: string, begin: nat, i: nat, flag: bool)
    requires begin <= i < |s| && ModeAt(s, begin, i) == Code && flag == MayStart(s, begin, i)
    ensures var e := NextAt(s, i);
      && i < e <= |s| && (forall j :: i < j < e ==> ModeAt(s, begin, j) != Code)
      && (e < |s| ==> ModeAt(s, begin, e) == Code && FlagAt(s, i, flag) == MayStart(s, begin, e))
  {
    TokenAt(s, i, flag);
    SkipIsOneToken(s, begin, i);
    StartAfterToken(s, begin, i);
    assert FlagAt(s, i, flag) == LeadsToStart(s, i, flag);
  }

  // Main result: in every script exactly the declarations where a statement may
  // start are hoisted, each up to its first terminator.
  lemma {:induction false} PiecesHoistExactly(s: string, begin: nat, i: nat, flag: bool)
    requires begin <= i <= |s|
    requires i < |s| ==> ModeAt(s, begin, i) == Code && flag == MayStart(s, begin, i)
    ensures HoistsExactly(s, begin, i, Pieces(s[i..], flag))
    decreases |s| - i
  {
    if i < |s| {
      if flag && Declares(s[i..]) {
        var e := i + DeclarationLen(s[i..]);
        EndsThere(s, i);
        PiecesHoistExactly(s, e, e, true);
        HoistsOne(s, begin, i, e);
      } else {
        var e, after := NextAt(s, i), FlagAt(s, i, flag);
        NextInCode(s, begin, i, flag);
        PiecesHoistExactly(s, begin, e, after);
        KeepsOne(s, begin, i, flag, e, after);
      }
    }
  }

  // The scan is at i, in the middle of producing `whole`.
  ghost predicate Scanning(code: string, i: nat, atStart: bool, head: string, rest: string, copyFrom: nat,
      whole: Parts)
  {
    && copyFrom <= i <= |code| && (copyFrom == 0 ==> head == "" && rest == "")
    && SplitSoFar(whole, head, rest + code[copyFrom..i], Split(code[i..], atStart))
  }

  lemma ScanPasses(code: string, i: nat, atStart: bool, head: string, rest: string, copyFrom: nat, whole: Parts)
    requires Scanning(code, i, atStart, head, rest, copyFrom, whole) && i < |code|
    requires !(atStart && Declares(code[i..]))
    ensures NextAt(code, i) <= |code|
    ensures Scanning(code, NextAt(code, i), FlagAt(code, i, atStart), head, rest, copyFrom, whole)
  {
    TokenAt(code, i, atStart);
    PassMovesOn(code, i, atStart, head, rest, copyFrom, whole);
  }

  // Nothing but a letter starts a declaration.
  lemma ScanMovesOn(code: string, i: nat, atStart: bool, head: string, rest: string, copyFrom: nat, whole: Parts)
    requires Scanning(code, i, atStart, head, rest, copyFrom, whole) && i < |code| && !Letter(code[i])
    ensures NextAt(code, i) <= |code|
    ensures Scanning(code, NextAt(code, i), FlagAt(code, i, atStart), head, rest, copyFrom, whole)
  {
    TokenAt(code, i, atStart);
    ScanPasses(code, i, atStart, head, rest, copyFrom, whole);
  }

  lemma ScanMovesTo(code: string, i: nat, atStart: bool, head: string, rest: string, copyFrom: nat, whole: Parts,
      to: nat, after: bool)
    requires Scanning(code, i, atStart, head, rest, copyFrom, whole) && i < |code| && !Letter(code[i])
    requires Clamped(code, to) == NextAt(code, i) && after == FlagAt(code, i, atStart)
    ensures Scanning(code, Clamped(code, to), after, head, rest, copyFrom, whole)
  {
    ScanMovesOn(code, i, atStart, head, rest, copyFrom, whole);
  }

  lemma ScanPassesOther(code: string, i: nat, atStart: bool, head: string, rest: string, copyFrom: nat, whole: Parts)
    requires Scanning(code, i, atStart, head, rest, copyFrom, whole) && i < |code|
    requires SkipTo(code, i) == i && !Ends(code[i]) && !Blank(code[i]) && !(atStart && Declares(code[i..]))
    ensures Scanning(code, i + 1, false, head, rest, copyFrom, whole)
  {
    ScanPasses(code, i, atStart, head, rest, copyFrom, whole);
  }

  lemma ScanStarts(code: string)
    ensures Scanning(code, 0, true, "", "", 0, Split(code, true))
  {
    assert code[0..] == code && "" + code[0..0] == "";
  }

  lemma ScanEnds(code: string, atStart: bool, head: string, rest: string, copyFrom: nat, whole: Parts)
    requires Scanning(code, |code|, atStart, head, rest, copyFrom, whole)
    ensures whole == if copyFrom == 0 then Parts("", code) else Parts(head, rest + code[copyFrom..])
  {
    assert code[|code|..] == "" && code[copyFrom..] == code[copyFrom..|code|];
    assert head + "" == head && rest + code[copyFrom..] + "" == rest + code[copyFrom..];
  }

  lemma ScanHoists(code: string, i: nat, head: string, rest: string, copyFrom: nat, whole: Parts)
    requires Scanning(code, i, true, head, rest, copyFrom, whole) && Declares(code[i..])
    ensures i + 6 <= |code| && i + 6 <= EndAt(code, i + 6, 0) <= |code|
    ensures var to := EndAt(code, i + 6, 0);
      Scanning(code, to, true, head + Trim(code[i..to]) + "\n", rest + code[copyFrom..i], to, whole)
  {
    DeclarationAt(code, i);
    HoistMovesOn(code, i, EndAt(code, i + 6, 0), head, rest, copyFrom, whole);
  }

  // Hoists the declaration the word starts at i, if it does.
  method HoistWord(code: string, at: nat, word: string, head0: string, rest0: string, copyFrom0: nat,
      ghost whole: Parts)
    returns (declared: bool, i: nat, head: string, rest: string, copyFrom: nat)
    requires Scanning(code, at, true, head0, rest0, copyFrom0, whole) && word in {IMPORT, EXPORT}
    ensures declared == Keyword(code[at..], word) && Scanning(code, i, true, head, rest, copyFrom, whole)
    ensures if declared then i > at else i == at && head == head0 && rest == rest0 && copyFrom == copyFrom0
  {
    declared := StartsDeclaration(code, at, word);
    if !declared {
      return false, at, head0, rest0, copyFrom0;
    }
    ScanHoists(code, at, head0, rest0, copyFrom0, whole);
    i := DeclarationEnd(code, at + 6);
    rest := rest0 + code[copyFrom0..at];
    head := head0 + Trim(code[at..i]) + "\n";
    copyFrom := i;
  }

  // Both keywords are tried in turn at a place where a statement may start.
  method HoistAt(code: string, at: nat, head0: string, rest0: string, copyFrom0: nat, ghost whole: Parts)
    returns (declared: bool, i: nat, head: string, rest: string, copyFrom: nat)
    requires Scanning(code, at, true, head0, rest0, copyFrom0, whole)
    ensures Scanning(code, i, true, head, rest, copyFrom, whole)
    ensures if declared then i > at
            else i == at && head == head0 && rest == rest0 && copyFrom == copyFrom0 && !Declares(code[at..])
  {
    declared, i, head, rest, copyFrom := false, at, head0, rest0, copyFrom0;
    for k := 0 to 2
      invariant Scanning(code, i, true, head, rest, copyFrom, whole)
      invariant if declared then i > at else i == at && head == head0 && rest == rest0 && copyFrom == copyFrom0
      invariant !declared && k >= 1 ==> !Keyword(code[at..], IMPORT)
      invariant !declared && k >= 2 ==> !Keyword(code[at..], EXPORT)
    {
      var found;
      var word := if k == 0 then IMPORT else EXPORT;
      found, i, head, rest, copyFrom := HoistWord(code, i, word, head, rest, copyFrom, whole);
      declared := declared || found;
    }
  }

  // A character that is part of no comment, literal or blank.
  method TakeOther(code: string, at: nat, mayStart: bool, head0: string, rest0: string, copyFrom0: nat,
      ghost whole: Parts)
    returns (i: nat, atStart: bool, head: string, rest: string, copyFrom: nat)
    requires Scanning(code, at, mayStart, head0, rest0, copyFrom0, whole) && at < |code|
    requires SkipTo(code, at) == at && !Ends(code[at]) && !Blank(code[at])
    ensures i > at && Scanning(code, i, atStart, head, rest, copyFrom, whole)
  {
    i, atStart, head, rest, copyFrom := at, mayStart, head0, rest0, copyFrom0;
    var declared := false;
    if atStart {
      declared, i, head, rest, copyFrom := HoistAt(code, i, head, rest, copyFrom, whole);
    }
    if !declared {
      ScanPassesOther(code, i, atStart, head, rest, copyFrom, whole);
      atStart := false;
      i := i + 1;
    }
  }

  // Past a comment, a literal, a blank or the end of a statement.
  method PassOver(code: string, at: nat, mayStart: bool, ghost head: string, ghost rest: string,
      ghost copyFrom: nat, ghost whole: Parts)
    returns (passed: bool, i: nat, atStart: bool)
    requires Scanning(code, at, mayStart, head, rest, copyFrom, whole) && at < |code|
    ensures passed ==> i > at && Scanning(code, Clamped(code, i), atStart, head, rest, copyFrom, whole)
    ensures !passed ==> SkipTo(code, at) == at && !Ends(code[at]) && !Blank(code[at])
  {
    var c := code[at];
    passed, i := SkipAt(code, at);
    atStart := mayStart;
    if passed {
      atStart := LineCommentAt(code, at) || (BlockCommentAt(code, at) && mayStart);
    } else if c == '\n' || c == ';' || c == ')' {
      passed, i, atStart := true, at + 1, true;
    } else if c == '\t' || c == '\r' || c == ' ' {
      passed, i := true, at + 1;
    }
    if passed { ScanMovesTo(code, at, mayStart, head, rest, copyFrom, whole, i, atStart); }
  }

  // `head` and `rest` come from cutting the script exactly at its declarations.
  ghost predicate SplitsExactly(code: string, head: string, rest: string) {
    exists pieces ::
      HoistsExactly(code, 0, 0, pieces) && Whole(pieces) == code && head == Lines(pieces) && rest == Remainder(pieces)
  }

  lemma SplitIsExact(code: string)
    ensures SplitsExactly(code, Split(code, true).head, Split(code, true).rest)
  {
    assert code[0..] == code;
    PiecesHoistExactly(code, 0, 0, true);
    PiecesMakeUpScript(code, true);
    SplitIsPartition(code, true);
  }

  method SplitTopLevelModuleDeclarations(code: string) returns (head: string, rest: string)
    ensures Parts(head, rest) == Split(code, true)
    ensures SplitsExactly(code, head, rest)
  {
    SplitIsExact(code);
    head, rest := "", "";
    var copyFrom: nat, i: nat, atStart := 0, 0, true;
    ghost var whole := Split(code, true);
    ScanStarts(code);
    while i < |code|
      invariant Scanning(code, Clamped(code, i), atStart, head, rest, copyFrom, whole)
      decreases |code| - i
    {
      var passed, to, mayStart := PassOver(code, i, atStart, head, rest, copyFrom, whole);
      if passed {
        i, atStart := to, mayStart;
      } else {
        i, atStart, head, rest, copyFrom := TakeOther(code, i, atStart, head, rest, copyFrom, whole);
      }
    }
    ScanEnds(code, atStart, head, rest, copyFrom, whole);
    if copyFrom == 0 {
      head, rest := "", code;
    } else {
      rest := rest + code[copyFrom..];
    }
  }
}

/** JSON with comments, read two ways: as a list of pieces (characters, quoted literals and comments), and as the
    scanner sees it, one character of lookahead at a time. */
module JsoncModel {
  import opened Text

  // ------------------------------------------------------------------ pieces

  datatype Piece =
    | Plain(c: char)
    | Quoted(quote: char, body: string, closed: bool)  // body includes the closing quote
    | LineComment(body: string)                        // up to, not including, the newline
    | BlockComment(body: string, closed: bool)
  {
    function Text(): (t: string)
      ensures t != ""
    {
      match this
      case Plain(c) => [c]
      case Quoted(quote, body, _) => [quote] + body
      case LineComment(body) => "//" + body
      case BlockComment(body, closed) => "/*" + body + if closed then "*/" else ""
    }

    predicate IsComment() {
      LineComment? || BlockComment?
    }
  }

  predicate IsQuote(c: char) {
    c == '"' || c == '\''
  }

  /** The text after an opening quote runs to its first unescaped closing quote and ends there. */
  predicate Closes(body: string, quote: char) {
    if body == "" then false
    else if body[0] == '\\' && |body| > 1 then Closes(body[2..], quote)
    else if body[0] == quote then |body| == 1
    else Closes(body[1..], quote)
  }

  /** It has no unescaped closing quote. */
  predicate StaysOpen(body: string, quote: char) {
    if body == "" then true
    else if body[0] == '\\' && |body| > 1 then StaysOpen(body[2..], quote)
    else body[0] != quote && StaysOpen(body[1..], quote)
  }

  /** `p` is a piece when `rest` follows it. */
  ghost predicate ValidPiece(p: Piece, rest: string) {
    match p
    case Plain(c) => !IsQuote(c) && (c == '/' && rest != "" ==> rest[0] != '/' && rest[0] != '*')
    case Quoted(quote, body, closed) =>
      IsQuote(quote) && if closed then Closes(body, quote) else StaysOpen(body, quote) && rest == ""
    case LineComment(body) => '\n' !in body && (rest != "" ==> rest[0] == '\n')
    case BlockComment(body, closed) => !Includes(body, "*/") && (!closed ==> rest == "")
  }

  function Render(ps: seq<Piece>): string {
    if ps == [] then "" else ps[0].Text() + Render(ps[1..])
  }

  ghost predicate Valid(ps: seq<Piece>) {
    ps == [] || (ValidPiece(ps[0], Render(ps[1..])) && Valid(ps[1..]))
  }

  function WithoutComments(ps: seq<Piece>): seq<Piece> {
    if ps == [] then []
    else (if ps[0].IsComment() then [] else [ps[0]]) + WithoutComments(ps[1..])
  }

  // ------------------------------------------------------------------ every text is one list of pieces

  /** Length of the quoted text after an opening quote, its closing quote included. */
  function QuotedLength(s: string, quote: char): (k: nat)
    ensures k <= |s|
    ensures Closes(s[..k], quote) || (k == |s| && StaysOpen(s, quote))
  {
    if s == "" then 0
    else if s[0] == '\\' && |s| > 1 then
      var k := 2 + QuotedLength(s[2..], quote);
      assert s[..k][2..] == s[2..][..k - 2];
      k
    else if s[0] == quote then 1
    else
      var k := 1 + QuotedLength(s[1..], quote);
      assert s[..k][1..] == s[1..][..k - 1];
      k
  }

  function LineLength(s: string): (k: nat)
    ensures k <= |s| && '\n' !in s[..k] && (k < |s| ==> s[k] == '\n')
  {
    if s == "" || s[0] == '\n' then 0
    else
      var k := 1 + LineLength(s[1..]);
      assert s[..k] == [s[0]] + s[1..][..k - 1];
      k
  }

  function Head(s: string): (p: Piece)
    requires s != ""
    ensures |p.Text()| <= |s|
  {
    if IsQuote(s[0]) then
      var k := QuotedLength(s[1..], s[0]);
      Quoted(s[0], s[1..1 + k], Closes(s[1..1 + k], s[0]))
    else if s[0] == '/' && |s| > 1 && s[1] == '/' then
      LineComment(s[2..2 + LineLength(s[2..])])
    else if s[0] == '/' && |s| > 1 && s[1] == '*' then
      var end := IndexOf(s[2..], "*/", 0);
      if end == -1 then BlockComment(s[2..], false) else BlockComment(s[2..2 + end], true)
    else
      Plain(s[0])
  }

  function Pieces(s: string): seq<Piece>
    decreases |s|
  {
    if s == "" then [] else [Head(s)] + Pieces(s[|Head(s).Text()|..])
  }

  lemma HeadIsValid(s: string)
    requires s != ""
    ensures var p := Head(s);
            var n := |p.Text()|;
            p.Text() == s[..n] && ValidPiece(p, s[n..])
  {
    if IsQuote(s[0]) {
      QuotedHeadIsValid(s);
    } else if s[0] == '/' && |s| > 1 && s[1] == '/' {
      var k := LineLength(s[2..]);
      assert s[2..2 + k] == s[2..][..k];
      assert s[..2 + k] == "//" + s[2..2 + k];
    } else if s[0] == '/' && |s| > 1 && s[1] == '*' {
      BlockHeadIsValid(s);
    }
  }

  lemma QuotedHeadIsValid(s: string)
    requires s != "" && IsQuote(s[0])
    ensures var p := Head(s);
            var n := |p.Text()|;
            p.Text() == s[..n] && ValidPiece(p, s[n..])
  {
    hide Closes, StaysOpen;
    var t := s[1..];
    var k := QuotedLength(t, s[0]);
    assert s[1..1 + k] == t[..k];
    assert s[..1 + k] == [s[0]] + t[..k];
    assert k == |t| ==> t[..k] == t;
  }

  lemma BlockHeadIsValid(s: string)
    requires |s| > 1 && s[..2] == "/*"
    ensures var p := Head(s);
            var n := |p.Text()|;
            p.Text() == s[..n] && ValidPiece(p, s[n..])
  {
    assert s[0] == s[..2][0] && s[1] == s[..2][1];
    var t := s[2..];
    var end := IndexOf(t, "*/", 0);
    assert s == "/*" + t;
    if end != -1 {
      forall i | 0 <= i <= end ensures !OccursAt(t[..end], "*/", i) {
        if i + 2 <= end {
          assert !OccursAt(t, "*/", i);
          assert t[..end][i..i + 2] == t[i..i + 2];
        }
      }
      assert s[..2 + end + 2] == "/*" + t[..end] + t[end..end + 2];
      assert s[2..2 + end] == t[..end];
    }
  }

  lemma {:induction false} PiecesAreValid(s: string)
    ensures Render(Pieces(s)) == s && Valid(Pieces(s))
    decreases |s|
  {
    hide Head, ValidPiece;
    if s == "" {
    } else {
      var n := |Head(s).Text()|;
      HeadIsValid(s);
      PiecesAreValid(s[n..]);
      assert s == s[..n] + s[n..];
      assert Pieces(s)[1..] == Pieces(s[n..]);
    }
  }

  lemma {:induction false} QuotedLengthIs(body: string, quote: char, rest: string)
    requires IsQuote(quote) && Closes(body, quote)
    ensures QuotedLength(body + rest, quote) == |body|
    decreases |body|
  {
    if body[0] == '\\' && |body| > 1 {
      QuotedLengthIs(body[2..], quote, rest);
      assert (body + rest)[2..] == body[2..] + rest;
    } else if body[0] != quote {
      QuotedLengthIs(body[1..], quote, rest);
      assert (body + rest)[1..] == body[1..] + rest;
    }
  }

  lemma {:induction false} QuotedLengthOfOpen(body: string, quote: char)
    requires IsQuote(quote) && StaysOpen(body, quote)
    ensures QuotedLength(body, quote) == |body| && !Closes(body, quote)
    decreases |body|
  {
    if body == "" {
    } else {
      if body[0] == '\\' && |body| > 1 {
        QuotedLengthOfOpen(body[2..], quote);
      } else {
        QuotedLengthOfOpen(body[1..], quote);
      }
    }
  }

  lemma {:induction false} LineLengthIs(body: string, rest: string)
    requires '\n' !in body && (rest != "" ==> rest[0] == '\n')
    ensures LineLength(body + rest) == |body|
    decreases |body|
  {
    if body == "" {
      assert body + rest == rest;
    } else {
      LineLengthIs(body[1..], rest);
      assert (body + rest)[1..] == body[1..] + rest;
    }
  }

  /** The first end of a block comment is where its body ends. */
  lemma BlockEndIs(body: string, rest: string)
    requires !Includes(body, "*/")
    ensures IndexOf(body + "*/" + rest, "*/", 0) == |body|
    ensures IndexOf(body, "*/", 0) == -1
  {
    var t := body + "*/" + rest;
    forall k | 0 <= k < |body| ensures !OccursAt(t, "*/", k) {
      if k + 2 <= |body| {
        assert t[k..k + 2] == body[k..k + 2];
        assert !OccursAt(body, "*/", k);
      } else {
        assert t[k..k + 2][1] == t[k + 1] == '*';
      }
    }
    assert t[|body|..|body| + 2] == "*/";
    IndexOfIs(t, "*/", 0, |body|);
    assert IndexOf(body, "*/", 0) <= |body|;
  }

  lemma QuotedHeadIs(p: Piece, rest: string)
    requires ValidPiece(p, rest) && p.Quoted?
    ensures Head(p.Text() + rest) == p
  {
    var s := p.Text() + rest;
    assert s[1..] == p.body + rest && s[0] == p.quote;
    if p.closed {
      QuotedLengthIs(p.body, p.quote, rest);
    } else {
      assert p.body + rest == p.body;
      QuotedLengthOfOpen(p.body, p.quote);
    }
    hide Closes, StaysOpen, QuotedLength;
    assert s[1..1 + |p.body|] == p.body;
  }

  lemma LineHeadIs(p: Piece, rest: string)
    requires ValidPiece(p, rest) && p.LineComment?
    ensures Head(p.Text() + rest) == p
  {
    hide LineLength;
    var s := p.Text() + rest;
    assert s[0] == '/' && s[1] == '/';
    assert s[2..] == p.body + rest;
    LineLengthIs(p.body, rest);
    assert s[2..2 + |p.body|] == p.body;
  }

  lemma BlockHeadIs(p: Piece, rest: string)
    requires ValidPiece(p, rest) && p.BlockComment?
    ensures Head(p.Text() + rest) == p
  {
    hide IndexOf, Includes;
    var t := if p.closed then p.body + "*/" + rest else p.body;
    BlockEndIs(p.body, rest);
    assert p.Text() + rest == "/*" + t;
    assert ("/*" + t)[2..] == t;
    assert ("/*" + t)[2..2 + |p.body|] == t[..|p.body|] == p.body;
  }

  lemma HeadIs(p: Piece, rest: string)
    requires ValidPiece(p, rest)
    ensures Head(p.Text() + rest) == p
  {
    match p {
      case Plain(c) =>
        assert rest != "" ==> (p.Text() + rest)[1] == rest[0];
      case Quoted(_, _, _) =>
        QuotedHeadIs(p, rest);
      case LineComment(_) =>
        LineHeadIs(p, rest);
      case BlockComment(_, _) =>
        BlockHeadIs(p, rest);
    }
  }

  /** The reading is unique: valid pieces are what their text is read as. */
  lemma {:induction false} PiecesAreUnique(ps: seq<Piece>)
    requires Valid(ps)
    ensures Pieces(Render(ps)) == ps
  {
    hide Head, ValidPiece;
    if ps == [] {
    } else {
      HeadIs(ps[0], Render(ps[1..]));
      PiecesAreUnique(ps[1..]);
      assert Render(ps)[|ps[0].Text()|..] == Render(ps[1..]);
    }
  }

  // ------------------------------------------------------------------ the scanner

  datatype Mode = Code | InString(quote: char) | InLine | InBlock

  /** What the scanner outputs from here on. */
  function Strip(s: string, mode: Mode): string
    decreases |s|
  {
    if s == "" then ""
    else
      var two := |s| > 1;
      match mode
      case InLine => if s[0] == '\n' then [s[0]] + Strip(s[1..], Code) else Strip(s[1..], InLine)
      case InBlock => if s[0] == '*' && two && s[1] == '/' then Strip(s[2..], Code) else Strip(s[1..], InBlock)
      case InString(quote) =>
        if s[0] == '\\' && two then s[..2] + Strip(s[2..], mode)
        else [s[0]] + Strip(s[1..], if s[0] == quote then Code else mode)
      case Code =>
        if IsQuote(s[0]) then [s[0]] + Strip(s[1..], InString(s[0]))
        else if s[0] == '/' && two && s[1] == '/' then Strip(s[2..], InLine)
        else if s[0] == '/' && two && s[1] == '*' then Strip(s[2..], InBlock)
        else [s[0]] + Strip(s[1..], Code)
  }

  lemma {:induction false} StripQuoted(body: string, quote: char, rest: string)
    requires IsQuote(quote)
    requires Closes(body, quote) || (StaysOpen(body, quote) && rest == "")
    ensures Strip(body + rest, InString(quote)) == body + Strip(rest, Code)
    decreases |body|
  {
    if body == "" {
    } else {
      if body[0] == '\\' && |body| > 1 {
        StripQuoted(body[2..], quote, rest);
        assert (body + rest)[2..] == body[2..] + rest && (body + rest)[..2] == body[..2];
        assert body == body[..2] + body[2..];
      } else {
        assert (body + rest)[1..] == body[1..] + rest && body == [body[0]] + body[1..];
        if body[0] == quote {
          assert body[1..] + rest == rest;
        } else {
          StripQuoted(body[1..], quote, rest);
        }
      }
    }
  }

  lemma {:induction false} StripLine(body: string, rest: string)
    requires '\n' !in body && (rest != "" ==> rest[0] == '\n')
    ensures Strip(body + rest, InLine) == Strip(rest, Code)
    decreases |body|
  {
    if body == "" {
      assert body + rest == rest;
    } else {
      StripLine(body[1..], rest);
      assert (body + rest)[1..] == body[1..] + rest;
    }
  }

  lemma {:induction false} StripBlock(body: string, closed: bool, rest: string)
    requires !Includes(body, "*/") && (!closed ==> rest == "")
    ensures Strip(body + (if closed then "*/" else "") + rest, InBlock) == Strip(rest, Code)
    decreases |body|
  {
    var t := body + (if closed then "*/" else "") + rest;
    if body == "" {
      if closed {
        assert t[2..] == rest;
      }
    } else {
      assert !OccursAt(body, "*/", 0);
      assert |body| > 1 ==> body[0..2] == [body[0], body[1]];
      forall i | 0 <= i <= |body| - 1 ensures !OccursAt(body[1..], "*/", i) {
        if i + 2 <= |body| - 1 {
          assert body[1..][i..i + 2] == body[i + 1..i + 3];
          assert !OccursAt(body, "*/", i + 1);
        }
      }
      StripBlock(body[1..], closed, rest);
      assert t[1..] == body[1..] + (if closed then "*/" else "") + rest;
    }
  }

  /** How a comment or a quoted text starts. */
  lemma StripOpening(t: string, quote: char)
    ensures Strip("//" + t, Code) == Strip(t, InLine)
    ensures Strip("/*" + t, Code) == Strip(t, InBlock)
    ensures IsQuote(quote) ==> Strip([quote] + t, Code) == [quote] + Strip(t, InString(quote))
  {}

  lemma StripQuotedPiece(p: Piece, rest: string)
    requires ValidPiece(p, rest) && p.Quoted?
    ensures Strip(p.Text() + rest, Code) == p.Text() + Strip(rest, Code)
  {
    hide Strip, Closes, StaysOpen;
    assert p.Text() + rest == [p.quote] + (p.body + rest);
    StripOpening(p.body + rest, p.quote);
    StripQuoted(p.body, p.quote, rest);
  }

  lemma StripLinePiece(p: Piece, rest: string)
    requires ValidPiece(p, rest) && p.LineComment?
    ensures Strip(p.Text() + rest, Code) == Strip(rest, Code)
  {
    hide Strip;
    assert p.Text() + rest == "//" + (p.body + rest);
    StripOpening(p.body + rest, ' ');
    StripLine(p.body, rest);
  }

  lemma StripBlockPiece(p: Piece, rest: string)
    requires ValidPiece(p, rest) && p.BlockComment?
    ensures Strip(p.Text() + rest, Code) == Strip(rest, Code)
  {
    hide Strip, Text.Includes;
    var t := p.body + (if p.closed then "*/" else "") + rest;
    assert p.Text() + rest == "/*" + t;
    StripOpening(t, ' ');
    StripBlock(p.body, p.closed, rest);
  }

  lemma StripPiece(p: Piece, rest: string)
    requires ValidPiece(p, rest)
    ensures Strip(p.Text() + rest, Code) == (if p.IsComment() then "" else p.Text()) + Strip(rest, Code)
  {
    if p.Plain? {
      assert (p.Text() + rest)[1..] == rest;
    } else {
      hide Strip, ValidPiece, Piece.Text;
      if p.Quoted? {
        StripQuotedPiece(p, rest);
      } else if p.LineComment? {
        StripLinePiece(p, rest);
      } else {
        StripBlockPiece(p, rest);
      }
    }
  }
}

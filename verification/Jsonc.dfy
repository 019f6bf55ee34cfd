/** Stripping comments from JSON: the scanner's loop, and what it does to any text. */
module Jsonc {
  import opened Text
  import opened JsoncModel

  method StripJsonComments(input: string) returns (out: string)
    ensures out == Strip(input, Code)
  {
    out := "";
    var i, n := 0, |input|;
    var inString, stringQuote := false, ' ';
    var inLineComment, inBlockComment := false, false;
    while i < n
      invariant 0 <= i <= n
      invariant !(inLineComment && inBlockComment) && !(inLineComment && inString) && !(inBlockComment && inString)
      invariant var mode := ModeOf(inString, stringQuote, inLineComment, inBlockComment);
                out + Strip(input[i..], mode) == Strip(input, Code)
    {
      ghost var now := ModeOf(inString, stringQuote, inLineComment, inBlockComment);
      var ch := input[i];
      var hasNext := i + 1 < n;
      OneStep(input, i, now);
      if inLineComment {
        if ch == '\n' {
          inLineComment := false;
          out := out + [ch];
        }
        i := i + 1;
        continue;
      }
      if inBlockComment {
        if ch == '*' && hasNext && input[i + 1] == '/' {
          inBlockComment := false;
          i := i + 2;
        } else {
          i := i + 1;
        }
        continue;
      }
      if inString {
        out := out + [ch];
        if ch == '\\' && hasNext {
          out := out + [input[i + 1]];
          i := i + 2;
          continue;
        }
        if ch == stringQuote {
          inString := false;
        }
        i := i + 1;
        continue;
      }
      if IsQuote(ch) {
        inString, stringQuote := true, ch;
        out := out + [ch];
        i := i + 1;
        continue;
      }
      if ch == '/' && hasNext && input[i + 1] == '/' {
        inLineComment := true;
        i := i + 2;
        continue;
      }
      if ch == '/' && hasNext && input[i + 1] == '*' {
        inBlockComment := true;
        i := i + 2;
        continue;
      }
      out := out + [ch];
      i := i + 1;
    }
  }

  ghost function ModeOf(inString: bool, stringQuote: char, inLineComment: bool, inBlockComment: bool): Mode {
    if inLineComment then InLine
    else if inBlockComment then InBlock
    else if inString then InString(stringQuote)
    else Code
  }

  /** Slices of slices, as the loop's steps need them. */
  lemma OneStep(input: string, i: nat, now: Mode)
    requires i < |input|
    ensures input[i..][0] == input[i] && input[i..][1..] == input[i + 1..]
    ensures i + 1 < |input| ==>
              && input[i..][1] == input[i + 1] && input[i..][2..] == input[i + 2..]
              && input[i..][..2] == [input[i]] + [input[i + 1]]
  {}

  // ------------------------------------------------------------------ what is removed

  lemma {:induction false} StripPieces(ps: seq<Piece>)
    requires Valid(ps)
    ensures Strip(Render(ps), Code) == Render(WithoutComments(ps))
  {
    hide ValidPiece, Strip;
    if ps == [] {
      assert Strip("", Code) == "" by { StripEmpty(); }
    } else {
      StripPieces(ps[1..]);
      StripPiece(ps[0], Render(ps[1..]));
      if !ps[0].IsComment() {
        assert WithoutComments(ps)[0] == ps[0] && WithoutComments(ps)[1..] == WithoutComments(ps[1..]);
      } else {
        assert WithoutComments(ps) == WithoutComments(ps[1..]);
      }
    }
  }

  lemma StripEmpty()
    ensures Strip("", Code) == ""
  {}

  lemma {:induction false} RemainsValid(ps: seq<Piece>)
    requires Valid(ps)
    ensures Valid(WithoutComments(ps))
    ensures forall p :: p in WithoutComments(ps) <==> p in ps && !p.IsComment()
  {
    if ps == [] {
    } else {
      RemainsValid(ps[1..]);
      if !ps[0].IsComment() {
        KeptPieceRemainsValid(ps);
        assert WithoutComments(ps)[0] == ps[0] && WithoutComments(ps)[1..] == WithoutComments(ps[1..]);
      } else {
        assert WithoutComments(ps) == WithoutComments(ps[1..]);
      }
      assert forall p :: p in ps <==> p == ps[0] || p in ps[1..];
    }
  }

  lemma KeptPieceRemainsValid(ps: seq<Piece>)
    requires ps != [] && Valid(ps) && !ps[0].IsComment()
    ensures ValidPiece(ps[0], Render(WithoutComments(ps[1..])))
  {}

  /** Read as pieces, the result is the input without its comments: every character and every quoted text that is
      not a comment stays, in order, and is read the same way afterwards. */
  lemma StripRemovesExactlyTheComments(input: string)
    ensures Pieces(Strip(input, Code)) == WithoutComments(Pieces(input))
  {
    hide ValidPiece, Strip, Pieces, WithoutComments;
    var ps := Pieces(input);
    PiecesAreValid(input);
    StripPieces(ps);
    RemainsValid(ps);
    PiecesAreUnique(WithoutComments(ps));
  }

  /** Removing comments never makes a new one. */
  lemma NoCommentsLeft(input: string)
    ensures forall p :: p in Pieces(Strip(input, Code)) ==> !p.IsComment()
  {
    StripRemovesExactlyTheComments(input);
    PiecesAreValid(input);
    RemainsValid(Pieces(input));
  }

  lemma {:induction false} NothingToRemove(ps: seq<Piece>)
    ensures (forall p :: p in ps ==> !p.IsComment()) ==> WithoutComments(ps) == ps
    ensures (exists p :: p in ps && p.IsComment()) ==> |WithoutComments(ps)| < |ps|
    ensures |WithoutComments(ps)| <= |ps|
  {
    if ps == [] {
    } else {
      NothingToRemove(ps[1..]);
      assert ps == [ps[0]] + ps[1..];
      assert forall p :: p in ps <==> p == ps[0] || p in ps[1..];
    }
  }

  /** A text is left as it is if and only if it is read without a comment. */
  lemma UnchangedExactly(input: string)
    ensures Strip(input, Code) == input <==> forall p :: p in Pieces(input) ==> !p.IsComment()
  {
    hide Strip, Pieces, WithoutComments, ValidPiece;
    StripRemovesExactlyTheComments(input);
    PiecesAreValid(input);
    StripPieces(Pieces(input));
    NothingToRemove(Pieces(input));
  }

  lemma Idempotent(input: string)
    ensures Strip(Strip(input, Code), Code) == Strip(input, Code)
  {
    NoCommentsLeft(input);
    UnchangedExactly(Strip(input, Code));
  }

  /** `kept` picks, in order, places of `input` that spell `out`. */
  ghost predicate Subsequence(out: string, input: string, kept: seq<nat>) {
    && |kept| == |out|
    && (forall i :: 0 <= i < |kept| ==> kept[i] < |input| && input[kept[i]] == out[i])
    && (forall i, j :: 0 <= i < j < |kept| ==> kept[i] < kept[j])
  }

  lemma {:induction false} OnlyRemoves(input: string, mode: Mode) returns (kept: seq<nat>)
    ensures Subsequence(Strip(input, mode), input, kept)
    decreases |input|
  {
    if input == "" { return []; }
    var step, taken, next := StepOf(input, mode);
    var later := OnlyRemoves(input[step..], next);
    hide Strip, Subsequence;
    kept := KeepAlso(input, step, taken, Strip(input[step..], next), later);
  }

  /** The first `taken` of the first `step` characters, before what is kept of the rest. */
  lemma KeepAlso(input: string, step: nat, taken: nat, rest: string, later: seq<nat>) returns (kept: seq<nat>)
    requires taken <= step <= |input| && Subsequence(rest, input[step..], later)
    ensures Subsequence(input[..taken] + rest, input, kept)
  {
    kept := seq(taken, i requires 0 <= i < taken => i) + seq(|later|, i requires 0 <= i < |later| => later[i] + step);
    forall i | taken <= i < |kept| ensures kept[i] < |input| && input[kept[i]] == rest[i - taken] {
      assert rest[i - taken] == input[step..][later[i - taken]];
    }
  }

  /** One step of the scanner: how many characters it reads, how many of those it outputs, and the mode after. */
  lemma StepOf(input: string, mode: Mode) returns (step: nat, taken: nat, next: Mode)
    requires input != ""
    ensures 0 < step <= |input| && taken <= step
    ensures Strip(input, mode) == input[..taken] + Strip(input[step..], next)
  {
    var two := |input| > 1;
    match mode {
      case InLine =>
        step, taken, next := 1, if input[0] == '\n' then 1 else 0, if input[0] == '\n' then Code else InLine;
      case InBlock =>
        var ends := input[0] == '*' && two && input[1] == '/';
        step, taken, next := if ends then 2 else 1, 0, if ends then Code else InBlock;
      case InString(quote) =>
        step := if input[0] == '\\' && two then 2 else 1;
        taken, next := step, if step == 1 && input[0] == quote then Code else mode;
      case Code =>
        if IsQuote(input[0]) {
          step, taken, next := 1, 1, InString(input[0]);
        } else if input[0] == '/' && two && (input[1] == '/' || input[1] == '*') {
          step, taken, next := 2, 0, if input[1] == '/' then InLine else InBlock;
        } else {
          step, taken, next := 1, 1, Code;
        }
    }
  }

  // ------------------------------------------------------------------ parsing

  /** What JSON.parse does with a text: a value or the error it throws. */
  datatype Parse<T, E> = Ok(value: T) | Thrown(error: E)

  method ParseJsonc<T, E>(parse: string -> Parse<T, E>, text: string) returns (r: Parse<T, E>)
    ensures parse(text).Ok? ==> r == parse(text)
    ensures parse(text).Thrown? ==>
              var bare := parse(Render(WithoutComments(Pieces(text))));
              r == if bare.Ok? then bare else parse(text)
  {
    r := parse(text);
    if r.Thrown? {
      PiecesAreValid(text);
      StripPieces(Pieces(text));
      var stripped := StripJsonComments(text);
      var second := parse(stripped);
      if second.Ok? {
        r := second;
      }
    }
  }

  // ------------------------------------------------------------------ on the text itself

  lemma {:induction false} ClosedBody(body: string, quote: char)
    requires quote !in body && '\\' !in body && quote != '\\'
    ensures Closes(body + [quote], quote)
    decreases |body|
  {
    if body == "" {
    } else {
      assert (body + [quote])[1..] == body[1..] + [quote] && (body + [quote])[0] == body[0];
      ClosedBody(body[1..], quote);
    }
  }

  lemma {:induction false} EscapedBody(body: string, c: char, rest: string, quote: char)
    requires quote !in body && '\\' !in body && quote != '\\' && Closes(rest, quote)
    ensures Closes(body + ['\\', c] + rest, quote)
    decreases |body|
  {
    var all := body + ['\\', c] + rest;
    if body == "" {
      assert all[0] == '\\' && all[2..] == rest;
    } else {
      assert all[1..] == body[1..] + ['\\', c] + rest && all[0] == body[0];
      EscapedBody(body[1..], c, rest, quote);
    }
  }

  lemma QuotedStays(quote: char, body: string, rest: string)
    requires IsQuote(quote) && Closes(body, quote)
    ensures Strip([quote] + body + rest, Code) == [quote] + body + Strip(rest, Code)
  {
    var p := Quoted(quote, body, true);
    hide Strip, Closes;
    StripPiece(p, rest);
    assert p.Text() == [quote] + body;
  }

  /** Whatever stands between quotes, of either kind, stays: comment signs, and a character that is escaped. */
  lemma StringsStay(quote: char, body: string, c: char, more: string, rest: string)
    requires quote == '"' || quote == '\''
    requires quote !in body && '\\' !in body && quote !in more && '\\' !in more
    ensures Strip([quote] + (body + [quote]) + rest, Code) == [quote] + (body + [quote]) + Strip(rest, Code)
    ensures var escaped := body + ['\\', c] + (more + [quote]);
            Strip([quote] + escaped + rest, Code) == [quote] + escaped + Strip(rest, Code)
  {
    assert IsQuote(quote);
    hide Strip, Closes;
    ClosedBody(body, quote);
    ClosedBody(more, quote);
    EscapedBody(body, c, more + [quote], quote);
    QuotedStays(quote, body + [quote], rest);
    QuotedStays(quote, body + ['\\', c] + (more + [quote]), rest);
  }

  /** A comment goes, of either kind; the newline that ends a line comment stays. */
  lemma CommentsGo(body: string, rest: string)
    ensures '\n' !in body ==> Strip("//" + body + "\n" + rest, Code) == "\n" + Strip(rest, Code)
    ensures !Includes(body, "*/") ==> Strip("/*" + body + "*/" + rest, Code) == Strip(rest, Code)
  {
    if '\n' !in body {
      StripPiece(LineComment(body), "\n" + rest);
      assert LineComment(body).Text() + ("\n" + rest) == "//" + body + "\n" + rest;
      NewlineStays(rest);
    }
    if !Includes(body, "*/") {
      StripPiece(BlockComment(body, true), rest);
      assert BlockComment(body, true).Text() + rest == "/*" + body + "*/" + rest;
    }
  }

  lemma NewlineStays(rest: string)
    ensures Strip("\n" + rest, Code) == "\n" + Strip(rest, Code)
  {
    assert ("\n" + rest)[1..] == rest;
  }
}

/** What redaction hides and what it shows: each piece of a statement in its place, whatever stands around it. */
module SqlRedaction {
  import opened Common
  import opened Lexing
  import opened Lexemes
  import opened SqlKeywords
  import opened SqlShape

  // ---------------------------------------------------------------- the lexer looks one character ahead

  lemma SuffixAlike(s: string, t: string, n: nat, k: nat)
    requires Alike(s, t, n) && k <= n
    ensures Alike(s[k..], t[k..], n - k)
  {
    assert s[k..][..n - k] == s[..n][k..] && t[k..][..n - k] == t[..n][k..];
  }

  lemma {:induction false} SpanAlike(s: string, t: string, keep: char -> bool)
    requires Alike(s, t, Span(s, keep) + 1)
    ensures Span(t, keep) == Span(s, keep)
  {
    assert s[0] == s[..1][0] && t[0] == t[..1][0] && s[..1] == s[..Span(s, keep) + 1][..1];
    assert t[..1] == t[..Span(s, keep) + 1][..1];
    if keep(s[0]) {
      SuffixAlike(s, t, Span(s, keep) + 1, 1);
      SpanAlike(s[1..], t[1..], keep);
    }
  }

  lemma CharAlike(s: string, t: string, n: nat, i: nat)
    requires Alike(s, t, n) && i < n
    ensures s[i] == t[i]
  {
    assert s[i] == s[..n][i] && t[i] == t[..n][i];
  }

  lemma {:induction false} QuotedAlike(s: string, t: string, quote: char)
    requires Alike(s, t, QuotedSpan(s, quote) + 1)
    ensures QuotedSpan(t, quote) == QuotedSpan(s, quote)
  {
    var n := QuotedSpan(s, quote) + 1;
    CharAlike(s, t, n, 0);
    if s[0] != quote {
      SuffixAlike(s, t, n, 1);
      QuotedAlike(s[1..], t[1..], quote);
    } else {
      CharAlike(s, t, n, 1);
      if s[1] == quote {
        SuffixAlike(s, t, n, 2);
        QuotedAlike(s[2..], t[2..], quote);
      }
    }
  }

  lemma {:induction false} CommentAlike(s: string, t: string)
    requires Alike(s, t, CommentSpan(s) + 1)
    ensures CommentSpan(t) == CommentSpan(s)
  {
    var n := CommentSpan(s) + 1;
    CharAlike(s, t, n, 0);
    CharAlike(s, t, n, 1);
    if !(s[0] == '*' && s[1] == '/') {
      SuffixAlike(s, t, n, 1);
      CommentAlike(s[1..], t[1..]);
    }
  }

  /** One case of `Next` each, without the others. */
  lemma NextQuoted(s: string, keywords: seq<string>)
    requires s != [] && KindOf(s[0], Second(s)) == Quoted
    ensures Next(s, keywords) == Piece(1 + QuotedSpan(s[1..], s[0]), Some("?"))
  {
  }

  lemma NextBracketed(s: string, keywords: seq<string>)
    requires s != [] && KindOf(s[0], Second(s)) == Bracketed
    ensures Next(s, keywords) == Piece(Min(2 + Span(s[1..], InBrackets), |s|), Some("?"))
  {
  }

  lemma NextNumber(s: string, keywords: seq<string>)
    requires s != [] && KindOf(s[0], Second(s)) == Number
    ensures Next(s, keywords) == Piece(1 + Span(s[1..], NumberPart), Some("?"))
  {
  }

  lemma NextLine(s: string, keywords: seq<string>)
    requires 1 < |s| && KindOf(s[0], Second(s)) == LineComment
    ensures Next(s, keywords) == Piece(2 + Span(s[2..], InLine), None)
  {
  }

  lemma NextBlock(s: string, keywords: seq<string>)
    requires 1 < |s| && KindOf(s[0], Second(s)) == BlockComment
    ensures Next(s, keywords) == Piece(2 + CommentSpan(s[2..]), None)
  {
  }

  lemma NextBlank(s: string, keywords: seq<string>)
    requires s != [] && KindOf(s[0], Second(s)) == Space
    ensures Next(s, keywords) == Piece(1, None)
  {
  }

  lemma NextOther(s: string, keywords: seq<string>)
    requires s != [] && KindOf(s[0], Second(s)) == Other
    ensures Next(s, keywords) == Piece(1, Some("?"))
  {
  }

  /** The two texts begin the same way. */
  lemma KindAlike(s: string, t: string, n: nat)
    requires Alike(s, t, n) && 2 <= n
    ensures KindOf(s[0], Second(s)) == KindOf(t[0], Second(t)) && s[0] == t[0] && 1 < |s| && 1 < |t|
  {
    CharAlike(s, t, n, 0);
    CharAlike(s, t, n, 1);
  }

  lemma WordAlike(s: string, t: string, keywords: seq<string>)
    requires s != [] && t != [] && KindOf(s[0], Second(s)) == Word && KindOf(t[0], Second(t)) == Word
    requires Alike(s, t, 2 + Span(s[1..], WordPart))
    ensures Next(t, keywords) == Next(s, keywords)
  {
    var n := 1 + Span(s[1..], WordPart);
    NextWord(s, keywords);
    NextWord(t, keywords);
    SuffixAlike(s, t, n + 1, 1);
    SpanAlike(s[1..], t[1..], WordPart);
    assert s[..n] == s[..n + 1][..n] && t[..n] == t[..n + 1][..n];
  }

  lemma SpannedAlike(s: string, t: string, keywords: seq<string>)
    requires s != [] && t != [] && KindOf(s[0], Second(s)) == KindOf(t[0], Second(t)) && s[0] == t[0]
    requires KindOf(s[0], Second(s)) in {Quoted, Bracketed, Parameter, Number}
    requires Alike(s, t, Next(s, keywords).length + 1)
    ensures Next(t, keywords) == Next(s, keywords)
  {
    SuffixAlike(s, t, Next(s, keywords).length + 1, 1);
    if KindOf(s[0], Second(s)) == Quoted {
      NextQuoted(s, keywords);
      NextQuoted(t, keywords);
      QuotedAlike(s[1..], t[1..], s[0]);
    } else if KindOf(s[0], Second(s)) == Bracketed {
      BracketedAlike(s, t, keywords);
    } else if KindOf(s[0], Second(s)) == Parameter {
      NextParameter(s, keywords);
      NextParameter(t, keywords);
      SpanAlike(s[1..], t[1..], WordPart);
    } else {
      NextNumber(s, keywords);
      NextNumber(t, keywords);
      SpanAlike(s[1..], t[1..], NumberPart);
    }
  }

  lemma BracketedAlike(s: string, t: string, keywords: seq<string>)
    requires s != [] && t != [] && KindOf(s[0], Second(s)) == Bracketed && KindOf(t[0], Second(t)) == Bracketed
    requires Alike(s, t, Next(s, keywords).length + 1)
    ensures Next(t, keywords) == Next(s, keywords)
  {
    NextBracketed(s, keywords);
    NextBracketed(t, keywords);
    var m := Span(s[1..], InBrackets);
    SuffixAlike(s, t, m + 3, 1);
    assert s[1..][..m + 1] == s[1..][..m + 2][..m + 1] && t[1..][..m + 1] == t[1..][..m + 2][..m + 1];
    SpanAlike(s[1..], t[1..], InBrackets);
  }

  lemma CommentedAlike(s: string, t: string, keywords: seq<string>)
    requires 1 < |s| && 1 < |t| && KindOf(s[0], Second(s)) == KindOf(t[0], Second(t))
    requires KindOf(s[0], Second(s)) in {LineComment, BlockComment}
    requires Alike(s, t, Next(s, keywords).length + 1)
    ensures Next(t, keywords) == Next(s, keywords)
  {
    if KindOf(s[0], Second(s)) == LineComment {
      NextLine(s, keywords);
      NextLine(t, keywords);
      SuffixAlike(s, t, Next(s, keywords).length + 1, 2);
      SpanAlike(s[2..], t[2..], InLine);
    } else {
      NextBlock(s, keywords);
      NextBlock(t, keywords);
      SuffixAlike(s, t, Next(s, keywords).length + 1, 2);
      CommentAlike(s[2..], t[2..]);
    }
  }

  lemma PlainAlike(s: string, t: string, n: nat, keywords: seq<string>)
    requires Alike(s, t, n) && 2 <= n && KindOf(s[0], Second(s)) == KindOf(t[0], Second(t))
    requires KindOf(s[0], Second(s)) in {Space, Mark, LongOperator, ShortOperator, Other}
    ensures Next(t, keywords) == Next(s, keywords)
  {
    CharAlike(s, t, n, 0);
    CharAlike(s, t, n, 1);
    assert s[..1] == t[..1] && s[..2] == t[..2];
  }

  lemma NextAlike(s: string, t: string, keywords: seq<string>)
    requires s != [] && Alike(s, t, Next(s, keywords).length + 1)
    ensures Next(t, keywords) == Next(s, keywords)
  {
    var n, kind := Next(s, keywords).length + 1, KindOf(s[0], Second(s));
    KindAlike(s, t, n);
    if kind == Word {
      NextWord(s, keywords);
      WordAlike(s, t, keywords);
    } else if kind in {LineComment, BlockComment} {
      CommentedAlike(s, t, keywords);
    } else if kind in {Quoted, Bracketed, Parameter, Number} {
      SpannedAlike(s, t, keywords);
    } else {
      PlainAlike(s, t, n, keywords);
    }
  }

  lemma LexerIsLocal(keywords: seq<string>)
    ensures Local(LexerFor(keywords))
  {
    var lexer := LexerFor(keywords);
    forall s, t ensures LooksOneAhead(lexer, s, t) {
      if s != [] && Alike(s, t, lexer(s).length + 1) { NextAlike(s, t, keywords); }
    }
  }

  // ---------------------------------------------------------------- one lexeme in its place

  /** Reading `a` with `c` behind it, the lexer comes to stand between two lexemes right before `c`. */
  ghost predicate Stands(a: string, c: char, keywords: seq<string>) { Reaches(a + [c], |a|, LexerFor(keywords)) }

  /** The tokens of `a`, which `c` follows, then `token` in place of what starts with `c`, then those of `d`; at
      most 96. */
  function Around(a: string, c: char, token: Option<string>, d: string, keywords: seq<string>): seq<string> {
    Onward(With(Emitted(a + [c], |a|, LexerFor(keywords)), token), d, MAX_TOKENS, LexerFor(keywords))
  }

  lemma InPlace(a: string, x: string, d: string, token: Option<string>, keywords: seq<string>)
    requires x != [] && Stands(a, x[0], keywords) && Next(x + d, keywords) == Piece(|x|, token)
    ensures TokensOf(a + (x + d), keywords) == Around(a, x[0], token, d, keywords)
  {
    LexerIsLocal(keywords);
    LexLexeme(a, x, d, token, MAX_TOKENS, LexerFor(keywords));
  }

  /** At the start of a statement, and after a lexeme that ends where it should, the lexer stands. */
  lemma StandsAtStart(c: char, keywords: seq<string>)
    ensures Stands("", c, keywords)
  {
  }

  // ---------------------------------------------------------------- quoted texts

  /** A text with every quote doubled. */
  function Escaped(b: string, quote: char): string {
    if b == [] then [] else (if b[0] == quote then [quote, quote] else [b[0]]) + Escaped(b[1..], quote)
  }

  function Literal(b: string, quote: char): string { [quote] + (Escaped(b, quote) + [quote]) }

  /** What follows does not go on with the quote. */
  predicate Apart(d: string, quote: char) { d == [] || d[0] != quote }

  lemma {:induction false} QuotedExact(b: string, quote: char, d: string)
    requires Apart(d, quote)
    ensures QuotedSpan((Escaped(b, quote) + [quote]) + d, quote) == |Escaped(b, quote)| + 1
  {
    var s := (Escaped(b, quote) + [quote]) + d;
    if b == [] {
      assert s == [quote] + d;
    } else {
      QuotedExact(b[1..], quote, d);
      var rest := (Escaped(b[1..], quote) + [quote]) + d;
      if b[0] == quote { assert s == [quote, quote] + rest && s[2..] == rest; }
      else { assert s == [b[0]] + rest && s[1..] == rest; }
    }
  }

  lemma LiteralNext(b: string, quote: char, d: string, keywords: seq<string>)
    requires quote in {'\'', '"', '`'} && Apart(d, quote)
    ensures Next(Literal(b, quote) + d, keywords) == Piece(|Literal(b, quote)|, Some("?"))
  {
    var s := Literal(b, quote) + d;
    assert s[0] == quote && s[1..] == (Escaped(b, quote) + [quote]) + d;
    QuotedExact(b, quote, d);
    NextQuoted(s, keywords);
  }

  /** Whatever stands in single quotes, double quotes or backticks, wherever the lexer meets it, gives one
      question mark: the shape is the same for every text in their place. */
  lemma LiteralsAreHidden(a: string, quote: char, b: string, c: string, d: string, keywords: seq<string>)
    requires quote in {'\'', '"', '`'} && Stands(a, quote, keywords) && Apart(d, quote)
    ensures TokensOf(a + (Literal(b, quote) + d), keywords) == Around(a, quote, Some("?"), d, keywords)
    ensures Shape(a + (Literal(b, quote) + d), keywords) == Shape(a + (Literal(c, quote) + d), keywords)
  {
    LiteralNext(b, quote, d, keywords);
    LiteralNext(c, quote, d, keywords);
    InPlace(a, Literal(b, quote), d, Some("?"), keywords);
    InPlace(a, Literal(c, quote), d, Some("?"), keywords);
  }

  /** A text without the quote stands for itself. */
  lemma {:induction false} EscapedPlain(b: string, quote: char)
    requires quote !in b
    ensures Escaped(b, quote) == b
  {
    if b == [] {
    } else {
      EscapedPlain(b[1..], quote);
      assert b == [b[0]] + b[1..];
    }
  }

  lemma BracketNext(b: string, d: string, keywords: seq<string>)
    requires ']' !in b
    ensures Next(("[" + (b + "]")) + d, keywords) == Piece(|b| + 2, Some("?"))
  {
    var s := ("[" + (b + "]")) + d;
    assert s[0] == '[' && s[1..] == b + ("]" + d);
    SpanExact(b, "]" + d, InBrackets);
    NextBracketed(s, keywords);
  }

  /** The same for bracketed names. */
  lemma BracketsAreHidden(a: string, b: string, c: string, d: string, keywords: seq<string>)
    requires ']' !in b && ']' !in c && Stands(a, '[', keywords)
    ensures TokensOf(a + (("[" + (b + "]")) + d), keywords) == Around(a, '[', Some("?"), d, keywords)
    ensures Shape(a + (("[" + (b + "]")) + d), keywords) == Shape(a + (("[" + (c + "]")) + d), keywords)
  {
    BracketNext(b, d, keywords);
    BracketNext(c, d, keywords);
    InPlace(a, "[" + (b + "]"), d, Some("?"), keywords);
    InPlace(a, "[" + (c + "]"), d, Some("?"), keywords);
  }

  // ---------------------------------------------------------------- comments

  /** A comment's body does not end the comment. */
  predicate Open(b: string) { forall i :: 0 <= i < |b| - 1 ==> !(b[i] == '*' && b[i + 1] == '/') }

  lemma {:induction false} CommentExact(b: string, d: string)
    requires Open(b)
    ensures CommentSpan((b + "*/") + d) == |b| + 2
  {
    var s := (b + "*/") + d;
    if b == [] {
      assert s == "*/" + d;
    } else {
      assert Open(b[1..]);
      CommentExact(b[1..], d);
      assert s[1..] == (b[1..] + "*/") + d;
      assert s[0] == b[0] && s[1] == if |b| > 1 then b[1] else '*';
    }
  }

  lemma BlockNext(b: string, d: string, keywords: seq<string>)
    requires Open(b)
    ensures Next(("/*" + (b + "*/")) + d, keywords) == Piece(|b| + 4, None)
  {
    var s := ("/*" + (b + "*/")) + d;
    assert s[0] == '/' && s[1] == '*' && s[2..] == (b + "*/") + d;
    CommentExact(b, d);
    NextBlock(s, keywords);
  }

  lemma LineNext(b: string, d: string, keywords: seq<string>)
    requires '\n' !in b && '\r' !in b && (d == [] || d[0] in {'\n', '\r'})
    ensures Next(("--" + b) + d, keywords) == Piece(|b| + 2, None)
  {
    var s := ("--" + b) + d;
    assert s[0] == '-' && s[1] == '-' && s[2..] == b + d;
    SpanExact(b, d, InLine);
    NextLine(s, keywords);
  }

  /** A block comment adds no token, whatever it says. */
  lemma BlockCommentsAreHidden(a: string, b: string, c: string, d: string, keywords: seq<string>)
    requires Open(b) && Open(c) && Stands(a, '/', keywords)
    ensures TokensOf(a + (("/*" + (b + "*/")) + d), keywords) == Around(a, '/', None, d, keywords)
    ensures Shape(a + (("/*" + (b + "*/")) + d), keywords) == Shape(a + (("/*" + (c + "*/")) + d), keywords)
  {
    BlockNext(b, d, keywords);
    BlockNext(c, d, keywords);
    InPlace(a, "/*" + (b + "*/"), d, None, keywords);
    InPlace(a, "/*" + (c + "*/"), d, None, keywords);
  }

  /** Nor does a line comment, which ends with its line. */
  lemma LineCommentsAreHidden(a: string, b: string, c: string, d: string, keywords: seq<string>)
    requires '\n' !in b && '\r' !in b && '\n' !in c && '\r' !in c && (d == [] || d[0] in {'\n', '\r'})
    requires Stands(a, '-', keywords)
    ensures TokensOf(a + (("--" + b) + d), keywords) == Around(a, '-', None, d, keywords)
    ensures Shape(a + (("--" + b) + d), keywords) == Shape(a + (("--" + c) + d), keywords)
  {
    LineNext(b, d, keywords);
    LineNext(c, d, keywords);
    InPlace(a, "--" + b, d, None, keywords);
    InPlace(a, "--" + c, d, None, keywords);
  }

  // ---------------------------------------------------------------- words, numbers, parameters

  predicate Initial(c: char) { 'A' <= c <= 'Z' || 'a' <= c <= 'z' || c == '_' }

  predicate Part(c: char) { Initial(c) || '0' <= c <= '9' }

  predicate Figure(c: char) { Part(c) || c in {'.', '+', '-'} }

  /** A word, a number, a bound parameter; and that what follows does not go on with it. */
  predicate IsWord(x: string) { x != [] && Initial(x[0]) && forall i :: 1 <= i < |x| ==> Part(x[i]) }

  predicate IsNumber(x: string) { x != [] && '0' <= x[0] <= '9' && forall i :: 1 <= i < |x| ==> Figure(x[i]) }

  predicate IsParameter(x: string) {
    x != [] && x[0] in {'?', ':', '@', '$'} && forall i :: 1 <= i < |x| ==> Part(x[i])
  }

  predicate WordEnds(d: string) { d == [] || !Part(d[0]) }

  predicate NumberEnds(d: string) { d == [] || !Figure(d[0]) }

  /** `k` is `w` in capitals. */
  predicate Capitals(w: string, k: string) {
    |k| == |w| && forall i :: 0 <= i < |w| ==> k[i] == if 'a' <= w[i] <= 'z' then (w[i] as int - 32) as char else w[i]
  }

  lemma CapitalsAre(w: string, k: string)
    requires Capitals(w, k)
    ensures Uppercase(w) == k
  {
    assert forall i :: 0 <= i < |w| ==> Uppercase(w)[i] == k[i];
  }

  lemma WordNext(w: string, k: string, d: string, keywords: seq<string>)
    requires IsWord(w) && Capitals(w, k) && WordEnds(d)
    ensures Next(w + d, keywords) == Piece(|w|, Some(if k in keywords then k else "?"))
  {
    Begins(w, d);
    WordKind(w[0], Second(w + d));
    NextWord(w + d, keywords);
    SpanExact(w[1..], d, WordPart);
    CapitalsAre(w, k);
  }

  /** A word shows as a keyword if its capitals are listed, and as a question mark otherwise. */
  lemma WordsShow(a: string, w: string, k: string, d: string, keywords: seq<string>)
    requires IsWord(w) && Capitals(w, k) && WordEnds(d) && Stands(a, w[0], keywords)
    ensures TokensOf(a + (w + d), keywords)
         == Around(a, w[0], Some(if k in keywords then k else "?"), d, keywords)
  {
    WordNext(w, k, d, keywords);
    InPlace(a, w, d, Some(if k in keywords then k else "?"), keywords);
  }

  lemma NumberKind(c: char, next: Option<char>)
    ensures '0' <= c <= '9' ==> KindOf(c, next) == Number
    ensures c in {'?', ':', '@', '$'} ==> KindOf(c, next) == Parameter
  {
  }

  lemma NumberNext(x: string, d: string, keywords: seq<string>)
    requires IsNumber(x) && NumberEnds(d)
    ensures Next(x + d, keywords) == Piece(|x|, Some("?"))
  {
    Begins(x, d);
    NumberKind(x[0], Second(x + d));
    NextNumber(x + d, keywords);
    SpanExact(x[1..], d, NumberPart);
  }

  lemma ParameterNext(x: string, d: string, keywords: seq<string>)
    requires IsParameter(x) && WordEnds(d)
    ensures Next(x + d, keywords) == Piece(|x|, Some("?"))
  {
    Begins(x, d);
    NumberKind(x[0], Second(x + d));
    NextParameter(x + d, keywords);
    SpanExact(x[1..], d, WordPart);
  }

  /** Numbers and bound parameters are hidden. */
  lemma NumbersAreHidden(a: string, x: string, d: string, keywords: seq<string>)
    requires x != [] && Stands(a, x[0], keywords)
    requires (IsNumber(x) && NumberEnds(d)) || (IsParameter(x) && WordEnds(d))
    ensures TokensOf(a + (x + d), keywords) == Around(a, x[0], Some("?"), d, keywords)
  {
    if IsNumber(x) { NumberNext(x, d, keywords); } else { ParameterNext(x, d, keywords); }
    InPlace(a, x, d, Some("?"), keywords);
  }

  // ---------------------------------------------------------------- which word or number it is does not matter

  lemma KindBefore(f: char, c: char, e: char)
    requires Part(c) && Part(e)
    ensures KindOf(f, Some(c)) == KindOf(f, Some(e)) && KindOf(f, Some(c)) !in {LineComment, BlockComment, LongOperator}
  {
  }

  lemma {:induction false} SpanTakes(v: string, c: char, keep: char -> bool)
    requires keep(c)
    ensures Span(v + [c], keep) != |v|
  {
    if v == [] {
    } else {
      assert (v + [c])[1..] == v[1..] + [c];
      SpanTakes(v[1..], c, keep);
    }
  }

  lemma {:induction false} QuotedEnds(v: string, c: char, e: char, quote: char)
    requires c != quote && e != quote && QuotedSpan(v + [c], quote) <= |v|
    ensures QuotedSpan(v + [e], quote) == QuotedSpan(v + [c], quote)
  {
    if v == [] {
    } else {
      assert (v + [c])[1..] == v[1..] + [c] && (v + [e])[1..] == v[1..] + [e];
      if v[0] != quote {
        QuotedEnds(v[1..], c, e, quote);
      } else if |v| > 1 && v[1] == quote {
        assert (v + [c])[2..] == v[2..] + [c] && (v + [e])[2..] == v[2..] + [e];
        QuotedEnds(v[2..], c, e, quote);
      }
    }
  }

  lemma {:induction false} CommentEnds(v: string, c: char, e: char)
    requires c != '/' && e != '/' && CommentSpan(v + [c]) <= |v|
    ensures CommentSpan(v + [e]) == CommentSpan(v + [c])
  {
    if v == [] {
    } else {
      assert (v + [c])[1..] == v[1..] + [c] && (v + [e])[1..] == v[1..] + [e];
      if !((v + [c])[0] == '*' && (v + [c])[1] == '/') { CommentEnds(v[1..], c, e); }
    }
  }

  /** What ends right before one word character ends right before another. */
  lemma EndsEither(s: string, c: char, e: char, keywords: seq<string>)
    requires s != [] && Part(c) && Part(e) && Next(s + [c], keywords).length == |s|
    ensures Next(s + [e], keywords) == Next(s + [c], keywords)
  {
    var x, y := s + [c], s + [e];
    Begins(s, [c]);
    Begins(s, [e]);
    KindBefore(s[0], c, e);
    var kind := KindOf(x[0], Second(x));
    assert kind == KindOf(y[0], Second(y));
    if kind == Quoted {
      NextQuoted(x, keywords);
      NextQuoted(y, keywords);
      QuotedEnds(s[1..], c, e, s[0]);
    } else if kind == Bracketed {
      EndsBracketed(s, c, e, keywords);
    } else if kind in {LineComment, BlockComment} {
      EndsComment(s, c, e, keywords);
    } else if kind in {Word, Number, Parameter} {
      EndsNever(s, c, keywords);
      assert false;
    } else {
      EndsPlain(s, c, e, keywords);
    }
  }

  lemma EndsNever(s: string, c: char, keywords: seq<string>)
    requires s != [] && Part(c) && KindOf((s + [c])[0], Second(s + [c])) in {Word, Number, Parameter}
    ensures Next(s + [c], keywords).length != |s|
  {
    Begins(s, [c]);
    SpanTakes(s[1..], c, WordPart);
    SpanTakes(s[1..], c, NumberPart);
  }

  lemma EndsBracketed(s: string, c: char, e: char, keywords: seq<string>)
    requires s != [] && s[0] == '[' && c != ']' && e != ']' && Next(s + [c], keywords).length == |s|
    ensures Next(s + [e], keywords) == Next(s + [c], keywords)
  {
    var x, y := s + [c], s + [e];
    Begins(s, [c]);
    Begins(s, [e]);
    NextBracketed(x, keywords);
    NextBracketed(y, keywords);
    var m := Span(x[1..], InBrackets);
    assert x[1..][..m + 1] == s[1..][..m + 1] && y[1..][..m + 1] == s[1..][..m + 1];
    SpanAlike(x[1..], y[1..], InBrackets);
  }

  lemma EndsComment(s: string, c: char, e: char, keywords: seq<string>)
    requires 1 < |s| && Part(c) && Part(e) && KindOf(s[0], Some(s[1])) in {LineComment, BlockComment}
    requires Next(s + [c], keywords).length == |s|
    ensures Next(s + [e], keywords) == Next(s + [c], keywords)
  {
    var x, y := s + [c], s + [e];
    assert x[0] == y[0] == s[0] && Second(x) == Second(y) == Some(s[1]);
    assert x[2..] == s[2..] + [c] && y[2..] == s[2..] + [e];
    if KindOf(s[0], Some(s[1])) == LineComment {
      NextLine(x, keywords);
      assert false;
    } else {
      NextBlock(x, keywords);
      NextBlock(y, keywords);
      CommentEnds(s[2..], c, e);
    }
  }

  lemma EndsPlain(s: string, c: char, e: char, keywords: seq<string>)
    requires s != [] && KindOf((s + [c])[0], Second(s + [c])) == KindOf((s + [e])[0], Second(s + [e]))
    requires KindOf((s + [c])[0], Second(s + [c])) in {Space, Mark, LongOperator, ShortOperator, Other}
    requires Next(s + [c], keywords).length == |s|
    ensures Next(s + [e], keywords) == Next(s + [c], keywords)
  {
    var x, y := s + [c], s + [e];
    assert x[..1] == s[..1] && y[..1] == s[..1];
    if |s| == 2 { assert x[..2] == s && y[..2] == s; }
  }

  lemma PartsInterchangeable(c: char, e: char, keywords: seq<string>)
    requires Part(c) && Part(e)
    ensures Interchangeable([c], [e], LexerFor(keywords))
  {
    var lexer := LexerFor(keywords);
    forall s ensures EitherFollows(s, [c], [e], lexer) {
      if s != [] && lexer(s + [c]).length == |s| {
        EndsEither(s, c, e, keywords);
      } else if s != [] && lexer(s + [c]).length < |s| {
        var n := lexer(s + [c]).length + 1;
        assert (s + [c])[..n] == s[..n] && (s + [e])[..n] == s[..n];
        NextAlike(s + [c], s + [e], keywords);
      }
    }
  }

  /** A word that is not listed, or a number. */
  ghost predicate Nameless(x: string, keywords: seq<string>) {
    IsNumber(x) || (IsWord(x) && forall k :: Capitals(x, k) ==> k !in keywords)
  }

  lemma NamelessNext(x: string, d: string, keywords: seq<string>)
    requires Nameless(x, keywords) && NumberEnds(d)
    ensures Next(x + d, keywords) == Piece(|x|, Some("?"))
  {
    if IsNumber(x) {
      NumberNext(x, d, keywords);
    } else {
      assert Capitals(x, Uppercase(x));
      WordNext(x, Uppercase(x), d, keywords);
    }
  }

  /** Statements that differ only in a name or a number have the same shape. */
  lemma NamesAndNumbersAreHidden(a: string, x: string, y: string, d: string, keywords: seq<string>)
    requires Nameless(x, keywords) && Nameless(y, keywords) && NumberEnds(d) && Stands(a, x[0], keywords)
    ensures TokensOf(a + (x + d), keywords) == TokensOf(a + (y + d), keywords)
    ensures Shape(a + (x + d), keywords) == Shape(a + (y + d), keywords)
  {
    PartsInterchangeable(x[0], y[0], keywords);
    ReachesEither(a, [x[0]], [y[0]], LexerFor(keywords));
    NamelessNext(x, d, keywords);
    NamelessNext(y, d, keywords);
    InPlace(a, x, d, Some("?"), keywords);
    InPlace(a, y, d, Some("?"), keywords);
  }

  // ---------------------------------------------------------------- the rest of the alphabet

  predicate IsBlank(c: char) { c in {' ', '\t', '\n', '\r', 12 as char} }

  predicate IsMark(c: char) { c in {'(', ')', ',', ';', '.'} }

  predicate IsSign(c: char) { c in {'=', '<', '>', '+', '-', '*', '/', '%', '|'} }

  predicate IsSecond(c: char) { c in {'=', '>', '<', '|'} }

  /** The sign is an operator by itself: what follows neither completes it nor opens a comment. */
  predicate SignEnds(c: char, d: string) {
    d == [] || !(IsSecond(d[0]) || (c == '-' && d[0] == '-') || (c == '/' && d[0] == '*'))
  }

  lemma SingleKind(c: char, d: string)
    ensures IsBlank(c) ==> KindOf(c, Second([c] + d)) == Space
    ensures IsMark(c) ==> KindOf(c, Second([c] + d)) == Mark
    ensures IsSign(c) && SignEnds(c, d) ==> KindOf(c, Second([c] + d)) == ShortOperator
  {
  }

  lemma SingleNext(c: char, d: string, keywords: seq<string>)
    ensures IsBlank(c) ==> Next([c] + d, keywords) == Piece(1, None)
    ensures IsMark(c) || (IsSign(c) && SignEnds(c, d)) ==> Next([c] + d, keywords) == Piece(1, Some([c]))
  {
    SingleKind(c, d);
    assert ([c] + d)[0] == c && ([c] + d)[..1] == [c];
    if IsBlank(c) { NextBlank([c] + d, keywords); }
    else if IsMark(c) || (IsSign(c) && SignEnds(c, d)) { NextShort([c] + d, keywords); }
  }

  lemma PairNext(c: char, e: char, d: string, keywords: seq<string>)
    requires IsSign(c) && IsSecond(e)
    ensures Next([c, e] + d, keywords) == Piece(2, Some([c, e]))
  {
    Begins([c, e], d);
    LongKind(c, e);
    NextLong([c, e] + d, keywords);
  }

  /** Punctuation and operators show as they are, blanks do not show. */
  lemma SignsShow(a: string, x: string, d: string, keywords: seq<string>)
    requires x != [] && Stands(a, x[0], keywords)
    ensures |x| == 1 && IsBlank(x[0]) ==> TokensOf(a + (x + d), keywords) == Around(a, x[0], None, d, keywords)
    ensures |x| == 1 && (IsMark(x[0]) || (IsSign(x[0]) && SignEnds(x[0], d))) ==>
      TokensOf(a + (x + d), keywords) == Around(a, x[0], Some(x), d, keywords)
    ensures |x| == 2 && IsSign(x[0]) && IsSecond(x[1]) ==>
      TokensOf(a + (x + d), keywords) == Around(a, x[0], Some(x), d, keywords)
  {
    if |x| == 1 {
      SingleNext(x[0], d, keywords);
      assert x == [x[0]];
      if IsBlank(x[0]) { InPlace(a, x, d, None, keywords); }
      else if IsMark(x[0]) || (IsSign(x[0]) && SignEnds(x[0], d)) { InPlace(a, x, d, Some(x), keywords); }
    } else if |x| == 2 && IsSign(x[0]) && IsSecond(x[1]) {
      PairNext(x[0], x[1], d, keywords);
      assert x == [x[0], x[1]];
      InPlace(a, x, d, Some(x), keywords);
    }
  }

  /** None of the characters that mean something. */
  predicate Meaningless(c: char) {
    !IsBlank(c) && !IsMark(c) && !IsSign(c) && !Part(c) && c !in {'\'', '"', '`', '[', '?', ':', '@', '$'}
  }

  /** Every other character, each byte of a letter beyond ASCII for one, is hidden by itself. */
  lemma OthersAreHidden(a: string, c: char, d: string, keywords: seq<string>)
    requires Meaningless(c) && Stands(a, c, keywords)
    ensures TokensOf(a + ([c] + d), keywords) == Around(a, c, Some("?"), d, keywords)
  {
    Begins([c], d);
    NextOther([c] + d, keywords);
    InPlace(a, [c], d, Some("?"), keywords);
  }

  // ---------------------------------------------------------------- statements written with spaces

  predicate IsOperator(x: string) { (|x| == 1 && IsSign(x[0])) || (|x| == 2 && IsSign(x[0]) && IsSecond(x[1])) }

  predicate IsLexeme(x: string) {
    IsWord(x) || IsNumber(x) || IsParameter(x) || IsOperator(x) || (|x| == 1 && IsMark(x[0]))
  }

  /** What a lexeme is shown as. */
  function Show(x: string, keywords: seq<string>): string {
    if IsWord(x) then Keyword(x, keywords) else if IsNumber(x) || IsParameter(x) then "?" else x
  }

  lemma LexemeNext(x: string, u: string, keywords: seq<string>)
    requires IsLexeme(x) && Boundary(u)
    ensures x != [] && Next(x + u, keywords) == Piece(|x|, Some(Show(x, keywords)))
  {
    if IsWord(x) {
      assert Capitals(x, Uppercase(x));
      WordNext(x, Uppercase(x), u, keywords);
    } else if IsNumber(x) {
      NumberNext(x, u, keywords);
    } else if IsParameter(x) {
      ParameterNext(x, u, keywords);
    } else if |x| == 1 {
      SingleNext(x[0], u, keywords);
      assert x == [x[0]];
    } else {
      PairNext(x[0], x[1], u, keywords);
      assert x == [x[0], x[1]];
    }
  }

  lemma LexerReadsAs(keywords: seq<string>)
    ensures ReadsAs(LexerFor(keywords), (x: string) => IsLexeme(x), (x: string) => Show(x, keywords))
  {
    var lexer := LexerFor(keywords);
    forall t, u | IsLexeme(t) && Boundary(u) ensures t != [] && lexer(t + u) == Piece(|t|, Some(Show(t, keywords))) {
      LexemeNext(t, u, keywords);
    }
    forall s ensures lexer(" " + s) == Piece(1, None) { NextSpace(s, keywords); }
  }

  /** A statement of up to 96 lexemes written with spaces between them gives one token a lexeme: keywords, marks
      and operators as they are, question marks for the rest. */
  lemma StatementShows(lexemes: seq<string>, keywords: seq<string>)
    requires |lexemes| <= MAX_TOKENS && forall i :: 0 <= i < |lexemes| ==> IsLexeme(lexemes[i])
    ensures TokensOf(Join(lexemes), keywords) == Shown(lexemes, (x: string) => Show(x, keywords))
  {
    LexerReadsAs(keywords);
    LexSpaced(lexemes, MAX_TOKENS, LexerFor(keywords), (x: string) => IsLexeme(x), (x: string) => Show(x, keywords));
  }

  lemma ShowsKeyword(w: string, k: string, keywords: seq<string>)
    requires IsWord(w) && Capitals(w, k) && k in keywords
    ensures Show(w, keywords) == k
  {
    CapitalsAre(w, k);
  }

  lemma ShowsNothing(x: string, keywords: seq<string>)
    requires Nameless(x, keywords)
    ensures IsLexeme(x) && Show(x, keywords) == "?"
  {
    if IsWord(x) { assert Capitals(x, Uppercase(x)); }
  }

  predicate ShowsAs(x: string, y: string, keywords: seq<string>) { IsLexeme(x) && Show(x, keywords) == y }

  predicate AllShowAs(lexemes: seq<string>, shown: seq<string>, keywords: seq<string>) {
    |lexemes| == |shown| && forall i :: 0 <= i < |shown| ==> ShowsAs(lexemes[i], shown[i], keywords)
  }

  lemma OneMore(x: string, y: string, lexemes: seq<string>, shown: seq<string>, keywords: seq<string>)
    requires ShowsAs(x, y, keywords) && AllShowAs(lexemes, shown, keywords)
    ensures AllShowAs([x] + lexemes, [y] + shown, keywords)
  {
  }

  /** A statement written with spaces has exactly the tokens its lexemes show as. */
  lemma StatementShowsAs(lexemes: seq<string>, shown: seq<string>, keywords: seq<string>)
    requires AllShowAs(lexemes, shown, keywords) && |lexemes| <= 96
    ensures TokensOf(Join(lexemes), keywords) == shown
  {
    StatementShows(lexemes, keywords);
    ShownIs(lexemes, shown, (x: string) => Show(x, keywords));
  }

  /** The statements that the service groups under one fingerprint: whatever the names, the number and the case
      of the keywords, such a query has this one shape. */
  lemma QueriesAreGrouped(select: string, x: string, from: string, y: string, where: string, z: string, n: string)
    requires IsWord(select) && Capitals(select, "SELECT") && IsWord(from) && Capitals(from, "FROM")
    requires IsWord(where) && Capitals(where, "WHERE") && IsNumber(n)
    requires Nameless(x, KEYWORDS) && Nameless(y, KEYWORDS) && Nameless(z, KEYWORDS)
    ensures Shape(Join([select, x, from, y, where, z, "=", n]), KEYWORDS)
         == Join(["SELECT", "?", "FROM", "?", "WHERE", "?", "=", "?"])
  {
    QueryWords();
    ShowsKeyword(select, "SELECT", KEYWORDS);
    ShowsKeyword(from, "FROM", KEYWORDS);
    ShowsKeyword(where, "WHERE", KEYWORDS);
    ShowsNothing(x, KEYWORDS);
    ShowsNothing(y, KEYWORDS);
    ShowsNothing(z, KEYWORDS);
    ShowsNothing(n, KEYWORDS);
    GroupedBy(select, x, from, y, where, z, n, "SELECT", "FROM", "WHERE", KEYWORDS);
  }

  lemma GroupedBy(select: string, x: string, from: string, y: string, where: string, z: string, n: string,
                  k: string, l: string, m: string, keywords: seq<string>)
    requires ShowsAs(select, k, keywords) && ShowsAs(from, l, keywords) && ShowsAs(where, m, keywords)
    requires ShowsAs(x, "?", keywords) && ShowsAs(y, "?", keywords) && ShowsAs(z, "?", keywords)
    requires ShowsAs(n, "?", keywords) && |k| + |l| + |m| <= 100
    ensures Shape(Join([select, x, from, y, where, z, "=", n]), keywords)
         == Join([k, "?", l, "?", m, "?", "=", "?"])
  {
    assert AllShowAs([], [], keywords) && ShowsAs("=", "=", keywords);
    OneMore(n, "?", [], [], keywords);
    OneMore("=", "=", [n], ["?"], keywords);
    TwoMore(where, m, z, "?", ["=", n], ["=", "?"], keywords);
    TwoMore(from, l, y, "?", [where, z, "=", n], [m, "?", "=", "?"], keywords);
    TwoMore(select, k, x, "?", [from, y, where, z, "=", n], [l, "?", m, "?", "=", "?"], keywords);
    StatementShowsAs([select, x, from, y, where, z, "=", n], [k, "?", l, "?", m, "?", "=", "?"], keywords);
    QueryJoined(k, l, m);
  }

  lemma TwoMore(x: string, k: string, y: string, l: string, lexemes: seq<string>, shown: seq<string>,
                 keywords: seq<string>)
    requires ShowsAs(x, k, keywords) && ShowsAs(y, l, keywords) && AllShowAs(lexemes, shown, keywords)
    ensures AllShowAs([x, y] + lexemes, [k, l] + shown, keywords)
  {
    OneMore(y, l, lexemes, shown, keywords);
    OneMore(x, k, [y] + lexemes, [l] + shown, keywords);
    assert [x] + ([y] + lexemes) == [x, y] + lexemes && [k] + ([l] + shown) == [k, l] + shown;
  }

  lemma JoinLength(t: string, rest: seq<string>)
    requires rest != []
    ensures |Join([t] + rest)| == |t| + 1 + |Join(rest)|
  {
    JoinMore(t, rest);
  }

  /** Such a query is short enough to be shown in full. */
  lemma QueryJoined(k: string, l: string, m: string)
    requires |k| + |l| + |m| <= 100
    ensures var joined := Join([k, "?", l, "?", m, "?", "=", "?"]); ShapeOf(joined) == joined
  {
    QueryTail("?", "=", "?", []);
    QueryTail(l, "?", m, ["?", "=", "?"]);
    assert [l, "?", m] + ["?", "=", "?"] == [l, "?", m, "?", "=", "?"];
    assert ["?", "=", "?"] + [] == ["?", "=", "?"];
    JoinLength("?", [l, "?", m, "?", "=", "?"]);
    JoinLength(k, ["?"] + [l, "?", m, "?", "=", "?"]);
    assert [k, "?", l, "?", m, "?", "=", "?"] == [k] + (["?"] + [l, "?", m, "?", "=", "?"]);
    CutWhole(Join([k, "?", l, "?", m, "?", "=", "?"]));
  }

  lemma CutWhole(joined: string)
    requires 0 < |joined| <= MAX_SHAPE
    ensures ShapeOf(joined) == joined
  {
  }

  lemma QueryTail(a: string, b: string, c: string, rest: seq<string>)
    ensures |Join([a, b, c] + rest)| == |a| + |b| + |c| + 2 + if rest == [] then 0 else 1 + |Join(rest)|
  {
    if rest != [] { JoinLength(c, rest); }
    JoinLength(b, [c] + rest);
    JoinLength(a, [b] + ([c] + rest));
    assert [a, b, c] + rest == [a] + ([b] + ([c] + rest));
    assert rest == [] ==> [c] + rest == [c];
  }

  lemma QueryWords()
    ensures "SELECT" in KEYWORDS && "FROM" in KEYWORDS && "WHERE" in KEYWORDS
  {
    assert "FROM" in PART4 && "SELECT" in PART10 && "WHERE" in PART11;
  }

  // ---------------------------------------------------------------- a literal after a keyword

  lemma AfterWord(w: string, c: char, keywords: seq<string>)
    requires IsWord(w)
    ensures Stands(w + " ", c, keywords)
    ensures Emitted((w + " ") + [c], |w + " "|, LexerFor(keywords)) == [Show(w, keywords)]
  {
    LexemeNext(w, " " + [c], keywords);
    NextSpace([c], keywords);
    AfterOne(w, Show(w, keywords), c, LexerFor(keywords));
  }

  lemma LiteralAfter(w: string, b: string, keywords: seq<string>)
    requires IsWord(w)
    ensures TokensOf((w + " ") + Literal(b, '\''), keywords) == [Show(w, keywords), "?"]
  {
    AfterWord(w, '\'', keywords);
    LiteralsAreHidden(w + " ", '\'', b, b, "", keywords);
    assert Literal(b, '\'') + "" == Literal(b, '\'');
    OnwardAll([Show(w, keywords), "?"], MAX_TOKENS, LexerFor(keywords));
    assert With([Show(w, keywords)], Some("?")) == [Show(w, keywords), "?"];
  }

  /** Whatever text is selected as a literal, words of SQL included, the shape is this. */
  lemma SelectedLiteral(b: string)
    ensures Shape("SELECT " + Literal(b, '\''), KEYWORDS) == "SELECT ?"
  {
    QueryWords();
    SelectedFor(b, KEYWORDS);
  }

  lemma SelectedFor(b: string, keywords: seq<string>)
    requires "SELECT" in keywords
    ensures Shape("SELECT " + Literal(b, '\''), keywords) == "SELECT ?"
  {
    assert IsWord("SELECT") && Capitals("SELECT", "SELECT");
    assert "SELECT" + " " == "SELECT " && "SELECT" + (" " + "?") == "SELECT ?";
    HiddenAfter("SELECT", "SELECT", b, keywords);
  }

  /** A keyword and a literal. */
  lemma HiddenAfter(w: string, k: string, b: string, keywords: seq<string>)
    requires IsWord(w) && Capitals(w, k) && k in keywords && |k| <= 100
    ensures Shape((w + " ") + Literal(b, '\''), keywords) == k + (" " + "?")
  {
    ShowsKeyword(w, k, keywords);
    LiteralAfter(w, b, keywords);
    JoinMore(k, ["?"]);
    assert [k] + ["?"] == [k, "?"] && Join(["?"]) == "?";
    CutWhole(k + (" " + "?"));
  }
}

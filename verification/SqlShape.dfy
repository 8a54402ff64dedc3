/** The keywords a shape may show, in the order of the service's list. */
module SqlKeywords {
  const PART1: seq<string> := [
    "ABORT", "ACTION", "ADD", "AFTER", "ALL", "ALTER", "ANALYZE", "AND", "AS", "ASC", "ATTACH", "BEFORE"
  ]
  const PART2: seq<string> := [
    "BEGIN", "BETWEEN", "BY", "CASCADE", "CASE", "CAST", "CHECK", "COLLATE", "COLUMN", "COMMIT", "CONFLICT",
    "CONSTRAINT"
  ]
  const PART3: seq<string> := [
    "CREATE", "CROSS", "CURRENT", "DEFAULT", "DELETE", "DESC", "DETACH", "DISTINCT", "DO", "DROP", "EACH",
    "ELSE"
  ]
  const PART4: seq<string> := [
    "END", "ESCAPE", "EXCEPT", "EXCLUDE", "EXISTS", "EXPLAIN", "FAIL", "FILTER", "FOLLOWING", "FOR", "FOREIGN",
    "FROM"
  ]
  const PART5: seq<string> := [
    "FULL", "GENERATED", "GLOB", "GROUP", "HAVING", "IF", "IGNORE", "IN", "INDEX", "INDEXED", "INITIALLY",
    "INNER"
  ]
  const PART6: seq<string> := [
    "INSERT", "INSTEAD", "INTERSECT", "INTO", "IS", "JOIN", "KEY", "LEFT", "LIKE", "LIMIT", "MATCH",
    "MATERIALIZED"
  ]
  const PART7: seq<string> := [
    "NATURAL", "NO", "NOT", "NOTHING", "NULL", "NULLS", "OF", "OFFSET", "ON", "OR", "ORDER", "OTHERS"
  ]
  const PART8: seq<string> := [
    "OUTER", "OVER", "PARTITION", "PLAN", "PRAGMA", "PRECEDING", "PRIMARY", "QUERY", "RAISE", "RANGE",
    "RECURSIVE", "REFERENCES"
  ]
  const PART9: seq<string> := [
    "REGEXP", "REINDEX", "RELEASE", "RENAME", "REPLACE", "RESTRICT", "RETURNING", "RIGHT", "ROLLBACK", "ROW",
    "ROWS", "SAVEPOINT"
  ]
  const PART10: seq<string> := [
    "SELECT", "SET", "TABLE", "TEMP", "TEMPORARY", "THEN", "TIES", "TO", "TRANSACTION", "TRIGGER", "UNBOUNDED",
    "UNION"
  ]
  const PART11: seq<string> := [
    "UNIQUE", "UPDATE", "USING", "VACUUM", "VALUES", "VIEW", "VIRTUAL", "WHEN", "WHERE", "WINDOW", "WITH",
    "WITHOUT"
  ]

  const KEYWORDS: seq<string> :=
    PART1 + PART2 + PART3 + PART4 + PART5 + PART6 + PART7 + PART8 + PART9 + PART10 + PART11

  lemma NotInPart1()
    ensures "UNKNOWN" !in PART1 && "MATERIAL" !in PART1
  {
  }

  lemma NotInPart2()
    ensures "UNKNOWN" !in PART2 && "MATERIAL" !in PART2
  {
  }

  lemma NotInPart3()
    ensures "UNKNOWN" !in PART3 && "MATERIAL" !in PART3
  {
  }

  lemma NotInPart4()
    ensures "UNKNOWN" !in PART4 && "MATERIAL" !in PART4
  {
  }

  lemma NotInPart5()
    ensures "UNKNOWN" !in PART5 && "MATERIAL" !in PART5
  {
  }

  lemma NotInPart6()
    ensures "UNKNOWN" !in PART6 && "MATERIAL" !in PART6
  {
  }

  lemma NotInPart7()
    ensures "UNKNOWN" !in PART7 && "MATERIAL" !in PART7
  {
  }

  lemma NotInPart8()
    ensures "UNKNOWN" !in PART8 && "MATERIAL" !in PART8
  {
  }

  lemma NotInPart9()
    ensures "UNKNOWN" !in PART9 && "MATERIAL" !in PART9
  {
  }

  lemma NotInPart10()
    ensures "UNKNOWN" !in PART10 && "MATERIAL" !in PART10
  {
  }

  lemma NotInPart11()
    ensures "UNKNOWN" !in PART11 && "MATERIAL" !in PART11
  {
  }

  /** Neither the fallback nor the beginning of MATERIALIZED is a keyword. */
  lemma NotKeywords()
    ensures "UNKNOWN" !in KEYWORDS && "MATERIAL" !in KEYWORDS
  {
    NotInPart1();
    NotInPart2();
    NotInPart3();
    NotInPart4();
    NotInPart5();
    NotInPart6();
    NotInPart7();
    NotInPart8();
    NotInPart9();
    NotInPart10();
    NotInPart11();
  }

  lemma IsKeyword()
    ensures "MATERIALIZED" in KEYWORDS
  {
    assert "MATERIALIZED" in PART6;
  }
}

/** Redaction of SQL to its shape (apps/api/src/observability.rs): a lexer that keeps keywords,
    punctuation and operators and replaces everything else by a question mark. A statement is a string
    with one character per byte of its UTF-8 encoding. */
module SqlShape {
  import opened Common
  import opened Lexing
  import opened SqlKeywords

  const MAX_TOKENS: nat := 96
  const MAX_SHAPE: nat := 320

  predicate Whitespace(c: char) { c in {' ', '\t', '\n', '\r', 12 as char} }
  predicate Digit(c: char) { '0' <= c <= '9' }
  predicate Lower(c: char) { 'a' <= c <= 'z' }
  predicate Letter(c: char) { Lower(c) || 'A' <= c <= 'Z' }
  predicate WordStart(c: char) { Letter(c) || c == '_' }
  predicate WordPart(c: char) { WordStart(c) || Digit(c) }
  predicate NumberPart(c: char) { WordPart(c) || c in {'.', '+', '-'} }
  predicate InLine(c: char) { c != '\n' && c != '\r' }
  predicate InBrackets(c: char) { c != ']' }
  predicate Punctuation(c: char) { c in {'(', ')', ',', ';', '.'} }
  predicate Operator(c: char) { c in {'=', '<', '>', '+', '-', '*', '/', '%', '|'} }
  predicate OperatorEnd(c: char) { c in {'=', '>', '<', '|'} }

  function Upper(c: char): char { if Lower(c) then (c as int - 32) as char else c }

  function Uppercase(s: string): (r: string)
    ensures |r| == |s| && forall i :: 0 <= i < |s| ==> r[i] == Upper(s[i])
  {
    if s == [] then [] else [Upper(s[0])] + Uppercase(s[1..])
  }

  // ---------------------------------------------------------------- the lexer as a function of the rest

  /** Length of the longest prefix of characters to keep. */
  function Span(s: string, keep: char -> bool): (n: nat)
    ensures n <= |s| && (forall i :: 0 <= i < n ==> keep(s[i])) && (n < |s| ==> !keep(s[n]))
  {
    if s == [] || !keep(s[0]) then 0 else 1 + Span(s[1..], keep)
  }

  /** Length of a block comment's body with its end; an unterminated one runs to the end. */
  function CommentSpan(s: string): (n: nat)
    ensures n <= |s|
  {
    if |s| < 2 then |s| else if s[0] == '*' && s[1] == '/' then 2 else 1 + CommentSpan(s[1..])
  }

  /** Length of a quoted text after its opening quote; a doubled quote stands for itself. */
  function QuotedSpan(s: string, quote: char): (n: nat)
    ensures n <= |s|
  {
    if s == [] then 0
    else if s[0] != quote then 1 + QuotedSpan(s[1..], quote)
    else if 1 < |s| && s[1] == quote then 2 + QuotedSpan(s[2..], quote)
    else 1
  }

  function Keyword(word: string, keywords: seq<string>): string {
    if Uppercase(word) in keywords then Uppercase(word) else "?"
  }

  /** What a piece of text is, told from its first two characters. */
  datatype Kind =
    Space | LineComment | BlockComment | Quoted | Bracketed | Parameter | Number | Word | Mark
    | LongOperator | ShortOperator | Other

  function KindOf(c: char, next: Option<char>): Kind {
    if Whitespace(c) then Space
    else if c == '-' && next == Some('-') then LineComment
    else if c == '/' && next == Some('*') then BlockComment
    else if c in {'\'', '"', '`'} then Quoted
    else if c == '[' then Bracketed
    else if c in {'?', ':', '@', '$'} then Parameter
    else if Digit(c) then Number
    else if WordStart(c) then Word
    else if Punctuation(c) then Mark
    else if Operator(c) then if next.Some? && OperatorEnd(next.value) then LongOperator else ShortOperator
    else Other
  }

  function Second(s: string): Option<char> { if 1 < |s| then Some(s[1]) else None }

  /** What the lexer consumes next, and the token it emits for it. */
  function Next(s: string, keywords: seq<string>): (piece: Piece)
    requires s != []
    ensures 0 < piece.length <= |s|
  {
    match KindOf(s[0], Second(s))
    case Space => Piece(1, None)
    case LineComment => Piece(2 + Span(s[2..], InLine), None)
    case BlockComment => Piece(2 + CommentSpan(s[2..]), None)
    case Quoted => Piece(1 + QuotedSpan(s[1..], s[0]), Some("?"))
    case Bracketed => Piece(Min(2 + Span(s[1..], InBrackets), |s|), Some("?"))
    case Parameter => Piece(1 + Span(s[1..], WordPart), Some("?"))
    case Number => Piece(1 + Span(s[1..], NumberPart), Some("?"))
    case Word => var n := 1 + Span(s[1..], WordPart); Piece(n, Some(Keyword(s[..n], keywords)))
    case Mark => Piece(1, Some(s[..1]))
    case LongOperator => Piece(2, Some(s[..2]))
    case ShortOperator => Piece(1, Some(s[..1]))
    case Other => Piece(1, Some("?"))
  }

  /** The lexer for a list of keywords. */
  function LexerFor(keywords: seq<string>): (lexer: Lexer)
    ensures Productive(lexer) && Follows(lexer, keywords)
  {
    (s: string) => if s == [] then Piece(0, None) else Next(s, keywords)
  }

  ghost predicate Follows(lexer: Lexer, keywords: seq<string>) {
    forall s :: s != [] ==> lexer(s) == Next(s, keywords)
  }

  /** The tokens the shape is made of. */
  function TokensOf(sql: string, keywords: seq<string>): seq<string> { Lex(sql, MAX_TOKENS, LexerFor(keywords)) }

  function ShapeOf(joined: string): string { Cut(if joined == "" then "UNKNOWN" else joined, MAX_SHAPE) }

  function Shape(sql: string, keywords: seq<string>): string { ShapeOf(Join(TokensOf(sql, keywords))) }

  // ---------------------------------------------------------------- the lexer as it runs

  method ScanWhile(sql: string, start: nat, keep: char -> bool) returns (index: nat)
    requires start <= |sql|
    ensures index == start + Span(sql[start..], keep)
  {
    index := start;
    while index < |sql| && keep(sql[index])
      invariant start <= index <= |sql|
      invariant start + Span(sql[start..], keep) == index + Span(sql[index..], keep)
    {
      assert sql[index..][1..] == sql[index + 1..];
      index := index + 1;
    }
  }

  method ScanComment(sql: string, start: nat) returns (index: nat)
    requires start <= |sql|
    ensures index == start + CommentSpan(sql[start..])
  {
    index := start;
    while index + 1 < |sql| && !(sql[index] == '*' && sql[index + 1] == '/')
      invariant start <= index <= |sql|
      invariant start + CommentSpan(sql[start..]) == index + CommentSpan(sql[index..])
    {
      assert sql[index..][1..] == sql[index + 1..];
      index := index + 1;
    }
    index := Min(index + 2, |sql|);
  }

  method ScanQuoted(sql: string, start: nat, quote: char) returns (index: nat)
    requires start <= |sql|
    ensures index == start + QuotedSpan(sql[start..], quote)
  {
    index := start;
    while index < |sql|
      invariant start <= index <= |sql|
      invariant start + QuotedSpan(sql[start..], quote) == index + QuotedSpan(sql[index..], quote)
    {
      assert sql[index..][1..] == sql[index + 1..];
      if sql[index] == quote {
        if index + 1 < |sql| && sql[index + 1] == quote {
          assert sql[index..][2..] == sql[index + 2..];
          index := index + 2;
        } else {
          return index + 1;
        }
      } else {
        index := index + 1;
      }
    }
  }

  /** The text after `n` more characters. */
  lemma SuffixOf(sql: string, start: nat, n: nat)
    requires start + n <= |sql|
    ensures sql[start..][n..] == sql[start + n..] && sql[start..][..n] == sql[start..start + n]
  {
  }

  function KindAt(sql: string, start: nat): (kind: Kind)
    requires start < |sql|
    ensures kind == KindOf(sql[start..][0], Second(sql[start..]))
  {
    KindOf(sql[start], if start + 1 < |sql| then Some(sql[start + 1]) else None)
  }

  /** White space and comments. */
  method SkipText(sql: string, start: nat, keywords: seq<string>) returns (index: nat)
    requires start < |sql| && KindAt(sql, start) in {Space, LineComment, BlockComment}
    ensures start < index <= |sql| && Next(sql[start..], keywords) == Piece(index - start, None)
  {
    match KindAt(sql, start) {
      case Space =>
        return start + 1;
      case LineComment =>
        SuffixOf(sql, start, 2);
        index := ScanWhile(sql, start + 2, InLine);
      case BlockComment =>
        SuffixOf(sql, start, 2);
        index := ScanComment(sql, start + 2);
    }
  }

  /** Literals, quoted names, parameters and numbers. */
  method HideText(sql: string, start: nat, keywords: seq<string>) returns (index: nat)
    requires start < |sql| && KindAt(sql, start) in {Quoted, Bracketed, Parameter, Number, Other}
    ensures start < index <= |sql| && Next(sql[start..], keywords) == Piece(index - start, Some("?"))
  {
    SuffixOf(sql, start, 1);
    match KindAt(sql, start) {
      case Quoted =>
        index := ScanQuoted(sql, start + 1, sql[start]);
      case Bracketed =>
        index := ScanWhile(sql, start + 1, InBrackets);
        index := Min(index + 1, |sql|);
      case Parameter =>
        index := ScanWhile(sql, start + 1, WordPart);
      case Number =>
        index := ScanWhile(sql, start + 1, NumberPart);
      case Other =>
        return start + 1;
    }
  }

  /** Words, punctuation and operators. */
  method KeepText(sql: string, start: nat, keywords: seq<string>) returns (index: nat, token: string)
    requires start < |sql| && KindAt(sql, start) in {Word, Mark, LongOperator, ShortOperator}
    ensures start < index <= |sql| && Next(sql[start..], keywords) == Piece(index - start, Some(token))
  {
    SuffixOf(sql, start, 1);
    match KindAt(sql, start) {
      case Word =>
        index := ScanWhile(sql, start + 1, WordPart);
        SuffixOf(sql, start, index - start);
        var word := Uppercase(sql[start..index]);
        return index, if word in keywords then word else "?";
      case LongOperator =>
        SuffixOf(sql, start, 2);
        return start + 2, sql[start..start + 2];
      case Mark =>
        return start + 1, sql[start..start + 1];
      case ShortOperator =>
        return start + 1, sql[start..start + 1];
    }
  }

  /** One turn of the main loop. */
  method Turn(sql: string, start: nat, keywords: seq<string>) returns (index: nat, token: Option<string>)
    requires start < |sql|
    ensures start < index <= |sql| && Next(sql[start..], keywords) == Piece(index - start, token)
  {
    var kind := KindAt(sql, start);
    if kind in {Space, LineComment, BlockComment} {
      index := SkipText(sql, start, keywords);
      return index, None;
    } else if kind in {Word, Mark, LongOperator, ShortOperator} {
      var text;
      index, text := KeepText(sql, start, keywords);
      return index, Some(text);
    }
    index := HideText(sql, start, keywords);
    return index, Some("?");
  }

  /** One turn, with its token put behind the others. */
  method Advance(sql: string, start: nat, before: seq<string>, keywords: seq<string>, ghost lexer: Lexer,
                 ghost all: seq<string>)
      returns (index: nat, tokens: seq<string>)
    requires Productive(lexer) && Follows(lexer, keywords)
    requires start < |sql| && |before| < MAX_TOKENS && OnTrack(sql, start, before, MAX_TOKENS, lexer, all)
    ensures start < index && OnTrack(sql, index, tokens, MAX_TOKENS, lexer, all)
  {
    var token;
    index, token := Turn(sql, start, keywords);
    OnTrackStep(sql, start, index, token, before, MAX_TOKENS, lexer, all);
    tokens := With(before, token);
  }

  /** The main loop. */
  method Tokens(sql: string, keywords: seq<string>) returns (tokens: seq<string>)
    ensures tokens == TokensOf(sql, keywords)
  {
    tokens := [];
    var index := 0;
    ghost var lexer := LexerFor(keywords);
    ghost var all := Lex(sql, MAX_TOKENS, lexer);
    OnTrackStarts(sql, MAX_TOKENS, lexer);
    while index < |sql| && |tokens| < MAX_TOKENS
      invariant OnTrack(sql, index, tokens, MAX_TOKENS, lexer, all)
      decreases |sql| - index
    {
      index, tokens := Advance(sql, index, tokens, keywords, lexer, all);
    }
    OnTrackEnds(sql, index, tokens, MAX_TOKENS, lexer, all);
  }

  /** Redaction: always a non-empty ASCII text of at most 320 characters, the shape of the input. */
  method Redact(sql: string, keywords: seq<string>) returns (shape: string)
    ensures shape == Shape(sql, keywords)
    ensures 0 < |shape| <= MAX_SHAPE && Ascii(shape)
  {
    var tokens := Tokens(sql, keywords);
    shape := Join(tokens);
    if shape == "" {
      shape := "UNKNOWN";
    }
    ShapeBounds(sql, keywords);
    if MAX_SHAPE < |shape| {
      shape := shape[..MAX_SHAPE];
    }
  }

  /** Redaction with the service's own keywords. */
  method RedactSqlShape(sql: string) returns (shape: string)
    ensures shape == Shape(sql, KEYWORDS)
    ensures 0 < |shape| <= 320 && Ascii(shape)
  {
    shape := Redact(sql, KEYWORDS);
  }

  // ---------------------------------------------------------------- vocabulary

  predicate KeywordToken(t: string, keywords: seq<string>) {
    t in keywords && t != [] && WordStart(t[0]) && forall i :: 0 <= i < |t| ==> WordPart(t[i]) && !Lower(t[i])
  }

  predicate OperatorToken(t: string) {
    (|t| == 1 && Operator(t[0])) || (|t| == 2 && Operator(t[0]) && OperatorEnd(t[1]))
  }

  /** All that may ever be emitted. */
  predicate Token(t: string, keywords: seq<string>) {
    t == "?" || KeywordToken(t, keywords) || (|t| == 1 && Punctuation(t[0])) || OperatorToken(t)
  }

  lemma WordVocabulary(s: string, n: nat, keywords: seq<string>)
    requires 0 < n <= |s| && WordStart(s[0]) && forall i :: 0 <= i < n ==> WordPart(s[i])
    ensures Token(Keyword(s[..n], keywords), keywords)
  {
    var word := Uppercase(s[..n]);
    assert forall i :: 0 <= i < n ==> word[i] == Upper(s[i]);
  }

  lemma NextVocabulary(s: string, keywords: seq<string>)
    requires s != []
    ensures Next(s, keywords).token.Some? ==> Token(Next(s, keywords).token.value, keywords)
  {
    if KindOf(s[0], Second(s)).Word? {
      var n := 1 + Span(s[1..], WordPart);
      assert forall i :: 1 <= i < n ==> s[i] == s[1..][i - 1];
      WordVocabulary(s, n, keywords);
    }
  }

  /** The vocabulary as a function. */
  function Vocabulary(keywords: seq<string>): string -> bool { t => Token(t, keywords) }

  lemma LexerSpeaks(keywords: seq<string>)
    ensures Speaks(LexerFor(keywords), Vocabulary(keywords))
  {
    var lexer := LexerFor(keywords);
    forall s | s != [] && lexer(s).token.Some? ensures Token(lexer(s).token.value, keywords) {
      NextVocabulary(s, keywords);
    }
  }

  /** Every token of every input is a question mark, a listed keyword, punctuation or an operator, and there
      are at most 96. */
  lemma LexVocabulary(sql: string, keywords: seq<string>)
    ensures |TokensOf(sql, keywords)| <= 96
    ensures forall i :: 0 <= i < |TokensOf(sql, keywords)| ==> Token(TokensOf(sql, keywords)[i], keywords)
  {
    LexerSpeaks(keywords);
    LexSpeaks(sql, MAX_TOKENS, LexerFor(keywords), Vocabulary(keywords));
  }

  predicate Ascii(s: string) { forall i :: 0 <= i < |s| ==> s[i] < 128 as char }

  lemma TokenAscii(t: string, keywords: seq<string>)
    requires Token(t, keywords)
    ensures t != [] && Ascii(t)
  {
  }

  lemma {:induction false} JoinAscii(tokens: seq<string>, keywords: seq<string>)
    requires forall i :: 0 <= i < |tokens| ==> Token(tokens[i], keywords)
    ensures Ascii(Join(tokens)) && (tokens != [] ==> Join(tokens) != [])
  {
    if tokens == [] {
    } else {
      TokenAscii(tokens[0], keywords);
      JoinAscii(tokens[1..], keywords);
    }
  }

  lemma ShapeOfBounds(joined: string)
    requires Ascii(joined)
    ensures 0 < |ShapeOf(joined)| <= MAX_SHAPE && Ascii(ShapeOf(joined))
  {
  }

  lemma TokensAscii(tokens: seq<string>, keywords: seq<string>)
    requires forall i :: 0 <= i < |tokens| ==> Token(tokens[i], keywords)
    ensures 0 < |ShapeOf(Join(tokens))| <= MAX_SHAPE && Ascii(ShapeOf(Join(tokens)))
    ensures Join(tokens) == "" <==> tokens == []
  {
    JoinAscii(tokens, keywords);
    ShapeOfBounds(Join(tokens));
  }

  lemma ShapeBounds(sql: string, keywords: seq<string>)
    ensures 0 < |Shape(sql, keywords)| <= MAX_SHAPE && Ascii(Shape(sql, keywords))
    ensures Join(TokensOf(sql, keywords)) == "" <==> TokensOf(sql, keywords) == []
  {
    LexVocabulary(sql, keywords);
    TokensAscii(TokensOf(sql, keywords), keywords);
  }

  // ---------------------------------------------------------------- lexing a shape again

  lemma {:induction false} SpanExact(v: string, u: string, keep: char -> bool)
    requires (forall i :: 0 <= i < |v| ==> keep(v[i])) && (u == [] || !keep(u[0]))
    ensures Span(v + u, keep) == |v|
  {
    if v == [] {
      assert v + u == u;
    } else {
      SpanExact(v[1..], u, keep);
      assert (v + u)[1..] == v[1..] + u;
    }
  }

  /** How a text that starts with `t` begins and goes on. */
  lemma Begins(t: string, u: string)
    requires t != []
    ensures (t + u)[0] == t[0] && (t + u)[1..] == t[1..] + u && (t + u)[..|t|] == t && (t + u)[|t|..] == u
    ensures Second(t + u) == if |t| > 1 then Some(t[1]) else Second(t[..1] + u)
    ensures |t| == 1 ==> Second(t + u) == if u == [] then None else Some(u[0])
  {
    assert t[..1] + u == [t[0]] + u;
  }

  /** One case of `Next` each, without the others. */
  lemma NextParameter(s: string, keywords: seq<string>)
    requires s != [] && KindOf(s[0], Second(s)) == Parameter
    ensures Next(s, keywords) == Piece(1 + Span(s[1..], WordPart), Some("?"))
  {
  }

  lemma NextWord(s: string, keywords: seq<string>)
    requires s != [] && KindOf(s[0], Second(s)) == Word
    ensures var n := 1 + Span(s[1..], WordPart);
      n <= |s| && Next(s, keywords) == Piece(n, Some(Keyword(s[..n], keywords)))
  {
  }

  lemma NextShort(s: string, keywords: seq<string>)
    requires s != [] && KindOf(s[0], Second(s)) in {Mark, ShortOperator}
    ensures Next(s, keywords) == Piece(1, Some(s[..1]))
  {
  }

  lemma NextLong(s: string, keywords: seq<string>)
    requires 1 < |s| && KindOf(s[0], Second(s)) == LongOperator
    ensures Next(s, keywords) == Piece(2, Some(s[..2]))
  {
  }

  lemma PlaceholderNext(u: string, keywords: seq<string>)
    requires Boundary(u)
    ensures Next("?" + u, keywords) == Piece(1, Some("?"))
  {
    Begins("?", u);
    NextParameter("?" + u, keywords);
    assert "?"[1..] == [];
    SpanExact([], u, WordPart);
  }

  lemma {:induction false} UppercaseSame(t: string)
    requires forall i :: 0 <= i < |t| ==> !Lower(t[i])
    ensures Uppercase(t) == t
  {
    if t == [] {
    } else {
      UppercaseSame(t[1..]);
      assert t == [t[0]] + t[1..];
    }
  }

  lemma WordKind(c: char, next: Option<char>)
    requires WordStart(c)
    ensures KindOf(c, next) == Word
  {
  }

  lemma KeywordNext(t: string, u: string, keywords: seq<string>)
    requires KeywordToken(t, keywords) && Boundary(u)
    ensures Next(t + u, keywords) == Piece(|t|, Some(t))
  {
    Begins(t, u);
    WordKind(t[0], Second(t + u));
    NextWord(t + u, keywords);
    SpanExact(t[1..], u, WordPart);
    UppercaseSame(t);
  }

  lemma ShortKind(c: char, next: Option<char>)
    requires next in {None, Some(' ')}
    ensures Punctuation(c) ==> KindOf(c, next) == Mark
    ensures Operator(c) ==> KindOf(c, next) == ShortOperator
  {
  }

  lemma ShortNext(t: string, u: string, keywords: seq<string>)
    requires |t| == 1 && (Punctuation(t[0]) || Operator(t[0])) && Boundary(u)
    ensures Next(t + u, keywords) == Piece(1, Some(t))
  {
    Begins(t, u);
    ShortKind(t[0], Second(t + u));
    NextShort(t + u, keywords);
  }

  lemma LongKind(c: char, d: char)
    requires Operator(c) && OperatorEnd(d)
    ensures KindOf(c, Some(d)) == LongOperator
  {
  }

  lemma LongNext(t: string, u: string, keywords: seq<string>)
    requires |t| == 2 && Operator(t[0]) && OperatorEnd(t[1])
    ensures Next(t + u, keywords) == Piece(2, Some(t))
  {
    Begins(t, u);
    LongKind(t[0], t[1]);
    NextLong(t + u, keywords);
  }

  /** A token followed by a space or the end lexes back to itself. */
  lemma NextToken(t: string, u: string, keywords: seq<string>)
    requires Token(t, keywords) && Boundary(u)
    ensures t != [] && Next(t + u, keywords) == Piece(|t|, Some(t))
  {
    if t == "?" {
      PlaceholderNext(u, keywords);
    } else if KeywordToken(t, keywords) {
      KeywordNext(t, u, keywords);
    } else if |t| == 1 {
      ShortNext(t, u, keywords);
    } else {
      LongNext(t, u, keywords);
    }
  }

  lemma NextSpace(s: string, keywords: seq<string>)
    ensures Next(" " + s, keywords) == Piece(1, None)
  {
    Begins(" ", s);
  }

  /** The service's lexer reads its own tokens back. */
  lemma LexerReadsBack(keywords: seq<string>)
    ensures ReadsBack(LexerFor(keywords), Vocabulary(keywords))
  {
    var lexer := LexerFor(keywords);
    forall t, u | Token(t, keywords) && Boundary(u) ensures t != [] && lexer(t + u) == Piece(|t|, Some(t)) {
      NextToken(t, u, keywords);
    }
    forall s ensures lexer(" " + s) == Piece(1, None) { NextSpace(s, keywords); }
  }

  /** An input with at least one token whose shape is not cut lexes to the same tokens as its shape, so
      redaction is idempotent there. */
  lemma ShapeLexesBack(sql: string, keywords: seq<string>)
    requires TokensOf(sql, keywords) != [] && |Join(TokensOf(sql, keywords))| <= MAX_SHAPE
    ensures TokensOf(Shape(sql, keywords), keywords) == TokensOf(sql, keywords)
    ensures Shape(Shape(sql, keywords), keywords) == Shape(sql, keywords)
  {
    ShapeBounds(sql, keywords);
    LexVocabulary(sql, keywords);
    LexerReadsBack(keywords);
    LexJoin(TokensOf(sql, keywords), MAX_TOKENS, LexerFor(keywords), Vocabulary(keywords));
  }

  /** A text that is one upper-case word. */
  predicate UpperWord(s: string) {
    s != "" && WordStart(s[0]) && forall i :: 0 <= i < |s| ==> WordPart(s[i]) && !Lower(s[i])
  }

  lemma LoneWord(s: string, keywords: seq<string>)
    requires UpperWord(s)
    ensures Next(s, keywords) == Piece(|s|, Some(if s in keywords then s else "?"))
  {
    WordKind(s[0], Second(s));
    NextWord(s, keywords);
    SpanExact(s[1..], "", WordPart);
    UppercaseSame(s);
    assert s[1..] + "" == s[1..] && s[..|s|] == s;
  }

  /** The beginning of a token that is no token itself: a word that is not in the list. */
  lemma FragmentNext(t: string, p: string, keywords: seq<string>)
    requires Token(t, keywords) && p <= t && p != "" && !Token(p, keywords)
    ensures Next(p, keywords) == Piece(|p|, Some("?"))
  {
    assert |p| == |t| ==> p == t;
    assert KeywordToken(t, keywords);
    assert forall i :: 0 <= i < |p| ==> p[i] == t[i];
    LoneWord(p, keywords);
  }

  lemma LexerFragments(keywords: seq<string>)
    ensures Fragments(LexerFor(keywords), Vocabulary(keywords), "?")
  {
    var lexer := LexerFor(keywords);
    forall t, p | Token(t, keywords) && p <= t && p != "" && !Token(p, keywords)
      ensures lexer(p) == Piece(|p|, Some("?"))
    {
      FragmentNext(t, p, keywords);
    }
  }

  lemma TokenSpaceless(t: string, keywords: seq<string>)
    requires Token(t, keywords)
    ensures Spaceless(t) && t != ""
  {
  }

  lemma LoneTokens(s: string, keywords: seq<string>)
    requires UpperWord(s)
    ensures TokensOf(s, keywords) == [if s in keywords then s else "?"]
  {
    var lexer := LexerFor(keywords);
    LoneWord(s, keywords);
    LexPiece(s, MAX_TOKENS, Piece(|s|, Some(if s in keywords then s else "?")), lexer);
    assert s[|s|..] == "";
    LexNothing("", MAX_TOKENS - 1, lexer);
  }

  lemma WordIsToken(s: string, keywords: seq<string>)
    requires UpperWord(s)
    ensures Token(s, keywords) <==> s in keywords
    ensures Spaceless(s)
  {
  }

  lemma WordAgain(s: string, keywords: seq<string>)
    requires UpperWord(s) && |s| <= MAX_SHAPE
    ensures Shape(s, keywords) == (if s in keywords then s else "?")
    ensures Shape(s, keywords) == s <==> Token(LastPiece(s), keywords)
  {
    LoneTokens(s, keywords);
    WordIsToken(s, keywords);
    LastPieceIs("", s);
    assert "" + s == s;
  }

  lemma UnknownIsWord()
    ensures UpperWord("UNKNOWN") && |"UNKNOWN"| == 7
  {
  }

  lemma InVocabulary(t: string, keywords: seq<string>)
    ensures Vocabulary(keywords)(t) <==> Token(t, keywords)
    ensures !Token("", keywords)
  {
  }

  lemma AllInVocabulary(tokens: seq<string>, keywords: seq<string>)
    requires forall i :: 0 <= i < |tokens| ==> Token(tokens[i], keywords)
    ensures forall i :: 0 <= i < |tokens| ==> Vocabulary(keywords)(tokens[i]) && Spaceless(tokens[i])
    ensures tokens != [] ==> Join(tokens) != ""
  {
    JoinAscii(tokens, keywords);
    forall i | 0 <= i < |tokens| ensures Vocabulary(keywords)(tokens[i]) && Spaceless(tokens[i]) {
      TokenSpaceless(tokens[i], keywords);
      InVocabulary(tokens[i], keywords);
    }
  }

  /** A shape made of tokens, cut or not. */
  lemma TokensAgain(tokens: seq<string>, keywords: seq<string>)
    requires tokens != [] && |tokens| <= MAX_TOKENS && forall i :: 0 <= i < |tokens| ==> Token(tokens[i], keywords)
    ensures var s := Cut(Join(tokens), MAX_SHAPE);
      TokensOf(s, keywords) != []
      && (Cut(Join(TokensOf(s, keywords)), MAX_SHAPE) == s <==> Vocabulary(keywords)(LastPiece(s)))
  {
    AllInVocabulary(tokens, keywords);
    InVocabulary("", keywords);
    LexerReadsBack(keywords);
    LexerFragments(keywords);
    JoinedAgain(tokens, MAX_TOKENS, MAX_SHAPE, LexerFor(keywords), Vocabulary(keywords), "?");
  }

  /** For every input and every keyword list, redacting a shape again gives it back exactly if what follows
      its last space is a token. */
  lemma RedactionIsIdempotentExactly(sql: string, keywords: seq<string>)
    ensures Shape(Shape(sql, keywords), keywords) == Shape(sql, keywords)
        <==> Token(LastPiece(Shape(sql, keywords)), keywords)
  {
    ShapeBounds(sql, keywords);
    var tokens, s := TokensOf(sql, keywords), Shape(sql, keywords);
    if tokens == [] {
      UnknownIsWord();
      WordAgain("UNKNOWN", keywords);
    } else {
      LexVocabulary(sql, keywords);
      TokensAgain(tokens, keywords);
      InVocabulary(LastPiece(s), keywords);
      ShapeBounds(s, keywords);
    }
  }

  lemma FallbackFor(keywords: seq<string>)
    requires "UNKNOWN" !in keywords
    ensures Shape("", keywords) == "UNKNOWN" && TokensOf("UNKNOWN", keywords) == ["?"]
    ensures Shape("UNKNOWN", keywords) == "?"
  {
    UnknownIsWord();
    LoneTokens("UNKNOWN", keywords);
    WordAgain("UNKNOWN", keywords);
    LexNothing("", MAX_TOKENS, LexerFor(keywords));
  }

  /** The fallback for an input without tokens is no fixed point of the service's redaction. */
  lemma FallbackLexesDifferently()
    ensures Shape("", KEYWORDS) == "UNKNOWN" && TokensOf("UNKNOWN", KEYWORDS) == ["?"]
    ensures Shape("UNKNOWN", KEYWORDS) == "?"
  {
    NotKeywords();
    FallbackFor(KEYWORDS);
  }

  // ---------------------------------------------------------------- a shape cut inside a keyword

  function Repeated(w: string, n: nat): seq<string> { if n == 0 then [] else [w] + Repeated(w, n - 1) }

  lemma {:induction false} RepeatedFacts(w: string, n: nat)
    ensures |Repeated(w, n)| == n && forall i :: 0 <= i < n ==> Repeated(w, n)[i] == w
    ensures |Lead(Repeated(w, n))| == n * (|w| + 1)
  {
    if n == 0 {
    } else {
      RepeatedFacts(w, n - 1);
      LeadMore(w, Repeated(w, n - 1));
    }
  }

  lemma CutText(w: string)
    requires |w| == 12
    ensures Cut(Join(Repeated(w, 24) + [w]), MAX_SHAPE) == Lead(Repeated(w, 24)) + w[..8]
    ensures Join(Repeated(w, 24) + [w]) != "" && Cut(Join(Repeated(w, 24) + [w]), MAX_SHAPE) != ""
  {
    var lead := Lead(Repeated(w, 24));
    RepeatedFacts(w, 24);
    JoinLead(Repeated(w, 24), w);
    assert |lead| == 312;
    assert (lead + w)[..MAX_SHAPE] == lead + w[..8];
  }

  lemma RepeatedTokens(w: string, keywords: seq<string>)
    requires KeywordToken(w, keywords)
    ensures TokensOf(Join(Repeated(w, 24) + [w]), keywords) == Repeated(w, 24) + [w]
  {
    RepeatedFacts(w, 24);
    LexerReadsBack(keywords);
    LexJoin(Repeated(w, 24) + [w], MAX_TOKENS, LexerFor(keywords), Vocabulary(keywords));
  }

  /** 25 times a keyword of twelve letters is cut after eight letters of the last one. */
  lemma CutShape(w: string, keywords: seq<string>)
    requires KeywordToken(w, keywords) && |w| == 12
    ensures LastPiece(Shape(Join(Repeated(w, 24) + [w]), keywords)) == w[..8]
  {
    RepeatedTokens(w, keywords);
    CutText(w);
    LeadEnds(Repeated(w, 24));
    TokenSpaceless(w, keywords);
    LastPieceIs(Lead(Repeated(w, 24)), w[..8]);
  }

  /** Concretely: the shape of 25 times MATERIALIZED ends in MATERIAL and is no fixed point. */
  lemma CutShapeExample()
    ensures var sql := Join(Repeated("MATERIALIZED", 24) + ["MATERIALIZED"]);
      Shape(Shape(sql, KEYWORDS), KEYWORDS) != Shape(sql, KEYWORDS)
  {
    NotKeywords();
    IsKeyword();
    CutShapeFor(KEYWORDS);
  }

  lemma MaterializedIsWord()
    ensures UpperWord("MATERIALIZED") && |"MATERIALIZED"| == 12 && "MATERIALIZED"[..8] == "MATERIAL"
  {
  }

  lemma CutShapeFor(keywords: seq<string>)
    requires "MATERIALIZED" in keywords && "MATERIAL" !in keywords
    ensures var sql := Join(Repeated("MATERIALIZED", 24) + ["MATERIALIZED"]);
      Shape(Shape(sql, keywords), keywords) != Shape(sql, keywords)
  {
    MaterializedIsWord();
    CutNoFixedPoint("MATERIALIZED", keywords);
  }

  lemma CutNoFixedPoint(w: string, keywords: seq<string>)
    requires KeywordToken(w, keywords) && |w| == 12 && w[..8] !in keywords
    ensures var sql := Join(Repeated(w, 24) + [w]); Shape(Shape(sql, keywords), keywords) != Shape(sql, keywords)
  {
    CutShape(w, keywords);
    RedactionIsIdempotentExactly(Join(Repeated(w, 24) + [w]), keywords);
    assert |w[..8]| == 8;
  }
}

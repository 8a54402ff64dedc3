/** Lexemes in a text, for any lexer: what each is shown as and what the rest of the text sees of it. */
module Lexemes {
  import opened Common
  import opened Lexing

  // ---------------------------------------------------------------- lexing what is written with spaces

  /** The lexer skips a space and reads every lexeme that ends at a boundary as what it is shown as. */
  ghost predicate ReadsAs(lexer: Lexer, lexeme: string -> bool, show: string -> string) {
    && (forall t, u :: lexeme(t) && Boundary(u) ==> t != [] && lexer(t + u) == Piece(|t|, Some(show(t))))
    && (forall s :: lexer(" " + s) == Piece(1, None))
  }

  function Shown(lexemes: seq<string>, show: string -> string): seq<string> {
    if lexemes == [] then [] else [show(lexemes[0])] + Shown(lexemes[1..], show)
  }

  lemma LexSpacedFirst(t: string, u: string, room: nat, lexer: Lexer, lexeme: string -> bool, show: string -> string)
    requires Productive(lexer) && ReadsAs(lexer, lexeme, show) && lexeme(t) && Boundary(u) && room > 0
    ensures Lex(t + u, room, lexer) == [show(t)] + Lex(u, room - 1, lexer)
  {
    assert t != [] && lexer(t + u) == Piece(|t|, Some(show(t)));
    LexPiece(t + u, room, Piece(|t|, Some(show(t))), lexer);
    assert (t + u)[|t|..] == u;
  }

  lemma LexSpacedGap(s: string, room: nat, lexer: Lexer, lexeme: string -> bool, show: string -> string)
    requires Productive(lexer) && ReadsAs(lexer, lexeme, show)
    ensures Lex(" " + s, room, lexer) == Lex(s, room, lexer)
  {
    if room == 0 {
      LexNothing(" " + s, room, lexer);
      LexNothing(s, room, lexer);
    } else {
      assert lexer(" " + s) == Piece(1, None);
      LexPiece(" " + s, room, Piece(1, None), lexer);
      assert (" " + s)[1..] == s;
    }
  }

  lemma LexSpacedMore(t: string, text: string, room: nat, lexer: Lexer, lexeme: string -> bool,
                      show: string -> string)
    requires Productive(lexer) && ReadsAs(lexer, lexeme, show) && lexeme(t) && room > 0
    ensures Lex(t + (" " + text), room, lexer) == [show(t)] + Lex(text, room - 1, lexer)
  {
    LexSpacedFirst(t, " " + text, room, lexer, lexeme, show);
    LexSpacedGap(text, room - 1, lexer, lexeme, show);
  }

  lemma ShownMore(t: string, rest: seq<string>, show: string -> string)
    ensures Shown([t] + rest, show) == [show(t)] + Shown(rest, show)
  {
    assert ([t] + rest)[1..] == rest;
  }

  lemma {:induction false} ShownIs(lexemes: seq<string>, shown: seq<string>, show: string -> string)
    requires |lexemes| == |shown| && forall i :: 0 <= i < |shown| ==> show(lexemes[i]) == shown[i]
    ensures Shown(lexemes, show) == shown
  {
    if lexemes == [] {
    } else {
      ShownIs(lexemes[1..], shown[1..], show);
      assert shown == [shown[0]] + shown[1..];
    }
  }

  lemma LexSpacedOne(t: string, room: nat, lexer: Lexer, lexeme: string -> bool, show: string -> string)
    requires Productive(lexer) && ReadsAs(lexer, lexeme, show) && lexeme(t) && room > 0
    ensures Lex(t, room, lexer) == [show(t)]
  {
    LexSpacedFirst(t, "", room, lexer, lexeme, show);
    LexNothing("", room - 1, lexer);
    assert t + "" == t;
  }

  /** A way of lexing that takes a lexeme and its space off a text, and the last lexeme without one. */
  ghost predicate PeelsAs(lex: (string, nat) -> seq<string>, lexeme: string -> bool, show: string -> string) {
    && (forall t, text, room: nat ::
          lexeme(t) && room > 0 ==> lex(t + (" " + text), room) == [show(t)] + lex(text, room - 1))
    && (forall t, room: nat :: lexeme(t) && room > 0 ==> lex(t, room) == [show(t)])
    && (forall room: nat :: lex("", room) == [])
  }

  lemma {:induction false} SpacedBy(lexemes: seq<string>, room: nat, lex: (string, nat) -> seq<string>,
                                    lexeme: string -> bool, show: string -> string)
    requires PeelsAs(lex, lexeme, show)
    requires |lexemes| <= room && forall i :: 0 <= i < |lexemes| ==> lexeme(lexemes[i])
    ensures lex(Join(lexemes), room) == Shown(lexemes, show)
  {
    if lexemes == [] {
    } else {
      var t, rest := lexemes[0], lexemes[1..];
      assert lexemes == [t] + rest;
      ShownMore(t, rest, show);
      if rest != [] {
        SpacedBy(rest, room - 1, lex, lexeme, show);
        JoinMore(t, rest);
      }
    }
  }

  lemma LexPeelsAs(lexer: Lexer, lexeme: string -> bool, show: string -> string)
    requires Productive(lexer) && ReadsAs(lexer, lexeme, show)
    ensures PeelsAs(LexWith(lexer), lexeme, show)
  {
    forall t, text, room: nat | lexeme(t) && room > 0
      ensures Lex(t + (" " + text), room, lexer) == [show(t)] + Lex(text, room - 1, lexer)
    {
      LexSpacedMore(t, text, room, lexer, lexeme, show);
    }
    forall t, room: nat | lexeme(t) && room > 0 ensures Lex(t, room, lexer) == [show(t)] {
      LexSpacedOne(t, room, lexer, lexeme, show);
    }
  }

  /** Lexemes written with spaces between them give what each is shown as. */
  lemma LexSpaced(lexemes: seq<string>, room: nat, lexer: Lexer, lexeme: string -> bool, show: string -> string)
    requires Productive(lexer) && ReadsAs(lexer, lexeme, show)
    requires |lexemes| <= room && forall i :: 0 <= i < |lexemes| ==> lexeme(lexemes[i])
    ensures Lex(Join(lexemes), room, lexer) == Shown(lexemes, show)
  {
    LexPeelsAs(lexer, lexeme, show);
    SpacedBy(lexemes, room, LexWith(lexer), lexeme, show);
  }

  // ---------------------------------------------------------------- a lexeme in its place

  predicate Alike(s: string, t: string, n: nat) { n <= |s| && n <= |t| && s[..n] == t[..n] }

  /** The next piece depends on its own characters and the one after it. */
  predicate LooksOneAhead(lexer: Lexer, s: string, t: string) {
    s != [] && Alike(s, t, lexer(s).length + 1) ==> lexer(t) == lexer(s)
  }

  ghost predicate Local(lexer: Lexer) { forall s, t :: LooksOneAhead(lexer, s, t) }

  /** To a lexer that has read a text up to there, it is all the same which of the two comes next. */
  predicate EitherFollows(s: string, x: string, y: string, lexer: Lexer) {
    s != [] && lexer(s + x).length <= |s| ==> lexer(s + y) == lexer(s + x)
  }

  ghost predicate Interchangeable(x: string, y: string, lexer: Lexer) { forall s :: EitherFollows(s, x, y, lexer) }

  /** Reading the text, the lexer comes to stand right before position `i`. */
  ghost predicate Reaches(text: string, i: nat, lexer: Lexer)
    requires Productive(lexer)
    decreases i
  {
    || i == 0
    || (&& i <= |text| && lexer(text).length <= i
        && Reaches(text[lexer(text).length..], i - lexer(text).length, lexer))
  }

  /** The tokens emitted on the way there. */
  function Emitted(text: string, i: nat, lexer: Lexer): seq<string>
    requires Productive(lexer)
    decreases i
  {
    if i == 0 || |text| < i || i < lexer(text).length then []
    else
      var piece := lexer(text);
      With([], piece.token) + Emitted(text[piece.length..], i - piece.length, lexer)
  }

  /** The tokens before a place and what is emitted from there on, as far as there is room. */
  function Onward(before: seq<string>, rest: string, room: nat, lexer: Lexer): seq<string>
    requires Productive(lexer)
  {
    if room <= |before| then before[..room] else before + Lex(rest, room - |before|, lexer)
  }

  lemma ReachesStep(text: string, i: nat, piece: Piece, rest: string, lexer: Lexer)
    requires Productive(lexer) && 0 < i <= |text| && piece == lexer(text) && rest == text[piece.length..]
    ensures Reaches(text, i, lexer) <==> piece.length <= i && Reaches(rest, i - piece.length, lexer)
  {
  }

  lemma EmittedStep(text: string, i: nat, piece: Piece, rest: string, lexer: Lexer)
    requires Productive(lexer) && 0 < i <= |text| && piece == lexer(text) && piece.length <= i
    requires rest == text[piece.length..]
    ensures Emitted(text, i, lexer) == With([], piece.token) + Emitted(rest, i - piece.length, lexer)
  {
  }

  /** One more token in front. */
  lemma OnwardMore(t: string, before: seq<string>, rest: string, room: nat, lexer: Lexer)
    requires Productive(lexer) && 0 < room
    ensures Onward([t] + before, rest, room, lexer) == [t] + Onward(before, rest, room - 1, lexer)
  {
    if room <= |before| + 1 {
      assert ([t] + before)[..room] == [t] + before[..room - 1];
    } else {
      Regroup3(t, before, Lex(rest, room - 1 - |before|, lexer));
    }
  }

  ghost predicate Splits(text: string, i: nat, room: nat, lexer: Lexer) requires Productive(lexer) {
    i <= |text| && Reaches(text, i, lexer) ==>
      Lex(text, room, lexer) == Onward(Emitted(text, i, lexer), text[i..], room, lexer)
  }

  lemma SplitNothing(text: string, i: nat, room: nat, lexer: Lexer)
    requires Productive(lexer) && (i == 0 || room == 0)
    ensures Splits(text, i, room, lexer)
  {
    if room == 0 { LexNothing(text, room, lexer); } else { SplitStart(text, room, lexer); }
  }

  lemma SplitStart(text: string, room: nat, lexer: Lexer)
    requires Productive(lexer)
    ensures Splits(text, 0, room, lexer)
  {
    assert text[0..] == text;
    assert Emitted(text, 0, lexer) == [];
    if room == 0 { LexNothing(text, room, lexer); }
    else { assert [] + Lex(text, room, lexer) == Lex(text, room, lexer); }
  }

  lemma SplitStep(text: string, i: nat, room: nat, piece: Piece, rest: string, lexer: Lexer)
    requires Productive(lexer) && 0 < i <= |text| && 0 < room && piece == lexer(text) && rest == text[piece.length..]
    requires piece.length <= i ==>
      Splits(rest, i - piece.length, if piece.token.None? then room else room - 1, lexer)
    ensures Splits(text, i, room, lexer)
  {
    ReachesStep(text, i, piece, rest, lexer);
    if Reaches(text, i, lexer) {
      var before := Emitted(rest, i - piece.length, lexer);
      assert rest[i - piece.length..] == text[i..];
      LexPiece(text, room, piece, lexer);
      EmittedStep(text, i, piece, rest, lexer);
      if piece.token.Some? {
        assert With([], piece.token) == [piece.token.value];
        OnwardMore(piece.token.value, before, text[i..], room, lexer);
      } else {
        assert [] + before == before;
      }
    }
  }

  /** A property of positions in texts. */
  type Claim = (string, nat, nat) -> bool

  /** The claim holds where there is nothing to read, and of a text if it holds behind its first piece. */
  predicate HandedOn(claim: Claim, text: string, i: nat, room: nat, lexer: Lexer) {
    if i == 0 || room == 0 || |text| < i || lexer(text).length == 0 || i < lexer(text).length then claim(text, i, room)
    else
      var piece := lexer(text);
      claim(text[piece.length..], i - piece.length, if piece.token.None? then room else room - 1) ==>
        claim(text, i, room)
  }

  lemma {:induction false} ByPieces(claim: Claim, text: string, i: nat, room: nat, lexer: Lexer)
    requires Productive(lexer) && forall s, j: nat, k: nat :: HandedOn(claim, s, j, k, lexer)
    ensures claim(text, i, room)
    decreases i
  {
    assert HandedOn(claim, text, i, room, lexer);
    if !(i == 0 || room == 0 || |text| < i || i < lexer(text).length) {
      var piece := lexer(text);
      ByPieces(claim, text[piece.length..], i - piece.length, if piece.token.None? then room else room - 1, lexer);
    }
  }

  lemma SplitHandedOn(text: string, i: nat, room: nat, lexer: Lexer)
    requires Productive(lexer)
    ensures HandedOn((s: string, j: nat, k: nat) => Splits(s, j, k, lexer), text, i, room, lexer)
  {
    if i == 0 || room == 0 {
      SplitNothing(text, i, room, lexer);
    } else if i <= |text| {
      var piece := lexer(text);
      var rest := text[piece.length..];
      if i < piece.length || Splits(rest, i - piece.length, if piece.token.None? then room else room - 1, lexer) {
        SplitStep(text, i, room, piece, rest, lexer);
      }
    }
  }

  /** Lexing goes on from there. */
  lemma LexSplit(text: string, i: nat, room: nat, lexer: Lexer)
    requires Productive(lexer)
    ensures Splits(text, i, room, lexer)
  {
    var claim: Claim := (s: string, j: nat, k: nat) => Splits(s, j, k, lexer);
    forall s, j: nat, k: nat ensures HandedOn(claim, s, j, k, lexer) { SplitHandedOn(s, j, k, lexer); }
    ByPieces(claim, text, i, room, lexer);
  }

  // ---------------------------------------------------------------- two texts read alike

  /** The second text gets the lexer as far as the first, with the same tokens. */
  ghost predicate GoesAlong(s: string, t: string, i: nat, lexer: Lexer) requires Productive(lexer) {
    Reaches(s, i, lexer) ==> Reaches(t, i, lexer) && Emitted(t, i, lexer) == Emitted(s, i, lexer)
  }

  /** A relation of texts. */
  type Along = (string, string, nat) -> bool

  /** The relation holds where there is nothing to read, and of two texts with the same first piece if it holds
      behind that. */
  predicate CarriedOn(along: Along, lexer: Lexer, s: string, t: string, i: nat, u: string, v: string) {
    var n := lexer(s).length;
    && (i == 0 || (i <= |s| && i <= |t| && i < n) ==> along(s, t, i))
    && (0 < n <= i <= |s| && i <= |t| && lexer(t) == lexer(s) && u == s[n..] && v == t[n..] && along(u, v, i - n) ==>
          along(s, t, i))
  }

  ghost predicate Carries(along: Along, lexer: Lexer) {
    forall s, t, i: nat, u, v :: CarriedOn(along, lexer, s, t, i, u, v)
  }

  lemma AlongStep(s: string, t: string, i: nat, u: string, v: string, lexer: Lexer)
    requires Productive(lexer) && 0 < i <= |s| && i <= |t|
    requires lexer(s).length <= i ==>
      && lexer(t) == lexer(s) && u == s[lexer(s).length..] && v == t[lexer(s).length..]
      && GoesAlong(u, v, i - lexer(s).length, lexer)
    ensures GoesAlong(s, t, i, lexer)
  {
    var piece := lexer(s);
    ReachesStep(s, i, piece, s[piece.length..], lexer);
    if Reaches(s, i, lexer) {
      ReachesStep(t, i, piece, v, lexer);
      EmittedStep(s, i, piece, u, lexer);
      EmittedStep(t, i, piece, v, lexer);
    }
  }

  lemma AlongCarried(s: string, t: string, i: nat, u: string, v: string, lexer: Lexer)
    requires Productive(lexer)
    ensures CarriedOn((x: string, y: string, j: nat) => GoesAlong(x, y, j, lexer), lexer, s, t, i, u, v)
  {
    var n := lexer(s).length;
    if 0 < i <= |s| && i <= |t| {
      if i < n {
        AlongStep(s, t, i, u, v, lexer);
      } else if lexer(t) == lexer(s) && u == s[n..] && v == t[n..] && GoesAlong(u, v, i - n, lexer) {
        AlongStep(s, t, i, u, v, lexer);
      }
    }
  }

  lemma AlongCarries(lexer: Lexer)
    requires Productive(lexer)
    ensures Carries((s: string, t: string, i: nat) => GoesAlong(s, t, i, lexer), lexer)
  {
    var along: Along := (s: string, t: string, i: nat) => GoesAlong(s, t, i, lexer);
    forall s, t, i: nat, u, v ensures CarriedOn(along, lexer, s, t, i, u, v) { AlongCarried(s, t, i, u, v, lexer); }
  }

  lemma Behind(a: string, x: string, n: nat)
    requires n <= |a|
    ensures (a + x)[n..] == a[n..] + x
  {
  }

  lemma FollowedStep(a: string, x: string, y: string, n: nat, lexer: Lexer, along: Along)
    requires EitherFollows(a, x, y, lexer) && Carries(along, lexer) && 0 < n <= |a| && n == lexer(a + x).length
    requires along(a[n..] + x, a[n..] + y, |a| - n)
    ensures along(a + x, a + y, |a|)
  {
    Behind(a, x, n);
    Behind(a, y, n);
    assert CarriedOn(along, lexer, a + x, a + y, |a|, a[n..] + x, a[n..] + y);
  }

  lemma FollowedNot(a: string, x: string, y: string, lexer: Lexer, along: Along)
    requires Carries(along, lexer) && (a == [] || |a| < lexer(a + x).length)
    ensures along(a + x, a + y, |a|)
  {
    assert CarriedOn(along, lexer, a + x, a + y, |a|, [], []);
  }

  lemma {:induction false} Followed(a: string, x: string, y: string, lexer: Lexer, along: Along)
    requires Productive(lexer) && Interchangeable(x, y, lexer) && Carries(along, lexer)
    ensures along(a + x, a + y, |a|)
    decreases |a|
  {
    if a == [] || |a| < lexer(a + x).length {
      FollowedNot(a, x, y, lexer, along);
    } else {
      var n := lexer(a + x).length;
      Followed(a[n..], x, y, lexer, along);
      FollowedStep(a, x, y, n, lexer, along);
    }
  }

  lemma ReachesEither(a: string, x: string, y: string, lexer: Lexer)
    requires Productive(lexer) && Interchangeable(x, y, lexer)
    ensures GoesAlong(a + x, a + y, |a|, lexer)
  {
    AlongCarries(lexer);
    Followed(a, x, y, lexer, (s: string, t: string, i: nat) => GoesAlong(s, t, i, lexer));
  }

  lemma Longer(s: string, c: char, u: string, n: nat)
    requires n <= |s|
    ensures Alike(s + [c], s + ([c] + u), n + 1)
  {
    assert s + ([c] + u) == (s + [c]) + u;
  }

  lemma LongerIsAlike(c: char, u: string, lexer: Lexer)
    requires Productive(lexer) && Local(lexer)
    ensures Interchangeable([c], [c] + u, lexer)
  {
    forall s ensures EitherFollows(s, [c], [c] + u, lexer) {
      if lexer(s + [c]).length <= |s| {
        Longer(s, c, u, lexer(s + [c]).length);
        assert LooksOneAhead(lexer, s + [c], s + ([c] + u));
      }
    }
  }

  /** How the lexer gets through a text depends on the text and the one character that follows. */
  lemma ReachesAlike(a: string, c: char, u: string, lexer: Lexer)
    requires Productive(lexer) && Local(lexer)
    ensures GoesAlong(a + [c], a + ([c] + u), |a|, lexer)
  {
    LongerIsAlike(c, u, lexer);
    ReachesEither(a, [c], [c] + u, lexer);
  }

  // ---------------------------------------------------------------- what is seen of a lexeme

  lemma OnwardAll(tokens: seq<string>, room: nat, lexer: Lexer)
    requires Productive(lexer) && |tokens| < room
    ensures Onward(tokens, "", room, lexer) == tokens
  {
    LexNothing("", room - |tokens|, lexer);
  }

  /** After a first lexeme and a space. */
  lemma AfterOne(w: string, token: string, c: char, lexer: Lexer)
    requires Productive(lexer) && w != [] && lexer(w + (" " + [c])) == Piece(|w|, Some(token))
    requires lexer(" " + [c]) == Piece(1, None)
    ensures Reaches((w + " ") + [c], |w + " "|, lexer) && Emitted((w + " ") + [c], |w + " "|, lexer) == [token]
  {
    var text, gap := (w + " ") + [c], " " + [c];
    Spaced(w, c);
    ReachesStep(text, |w| + 1, Piece(|w|, Some(token)), gap, lexer);
    EmittedStep(text, |w| + 1, Piece(|w|, Some(token)), gap, lexer);
    ReachesStep(gap, 1, Piece(1, None), [c], lexer);
    EmittedStep(gap, 1, Piece(1, None), [c], lexer);
  }

  lemma Spaced(w: string, c: char)
    ensures (w + " ") + [c] == w + (" " + [c]) && ((w + " ") + [c])[|w|..] == " " + [c]
    ensures (" " + [c])[1..] == [c]
  {
  }

  lemma Placed(a: string, x: string, d: string)
    requires x != []
    ensures a + (x + d) == a + ([x[0]] + (x[1..] + d)) && (a + (x + d))[|a|..] == x + d
  {
  }

  lemma OnwardSome(before: seq<string>, t: string, s: string, d: string, room: nat, lexer: Lexer)
    requires Productive(lexer) && |before| < room
    requires Lex(s, room - |before|, lexer) == [t] + Lex(d, room - |before| - 1, lexer)
    ensures Onward(before, s, room, lexer) == Onward(before + [t], d, room, lexer)
  {
    Regroup(before, t, Lex(d, room - |before| - 1, lexer));
    if room == |before| + 1 { LexNothing(d, 0, lexer); }
  }

  lemma OnwardFull(before: seq<string>, t: string, s: string, d: string, room: nat, lexer: Lexer)
    requires Productive(lexer) && room <= |before|
    ensures Onward(before, s, room, lexer) == Onward(before, d, room, lexer) == Onward(before + [t], d, room, lexer)
  {
    assert (before + [t])[..room] == before[..room];
  }

  lemma LexFirst(x: string, d: string, token: Option<string>, room: nat, lexer: Lexer)
    requires Productive(lexer) && x != [] && lexer(x + d) == Piece(|x|, token) && 0 < room
    ensures Lex(x + d, room, lexer)
         == if token.None? then Lex(d, room, lexer) else [token.value] + Lex(d, room - 1, lexer)
  {
    LexPiece(x + d, room, Piece(|x|, token), lexer);
    assert (x + d)[|x|..] == d;
  }

  lemma OnwardFirst(before: seq<string>, x: string, d: string, token: Option<string>, room: nat, lexer: Lexer)
    requires Productive(lexer) && x != [] && lexer(x + d) == Piece(|x|, token)
    ensures Onward(before, x + d, room, lexer) == Onward(With(before, token), d, room, lexer)
  {
    if room <= |before| {
      OnwardFull(before, if token.Some? then token.value else "", x + d, d, room, lexer);
    } else {
      LexFirst(x, d, token, room - |before|, lexer);
      if token.Some? { OnwardSome(before, token.value, x + d, d, room, lexer); }
    }
  }

  /** A lexeme in its place gives its token, and nothing else of it is seen. */
  lemma LexLexeme(a: string, x: string, d: string, token: Option<string>, room: nat, lexer: Lexer)
    requires Productive(lexer) && Local(lexer) && x != [] && Reaches(a + [x[0]], |a|, lexer)
    requires lexer(x + d) == Piece(|x|, token)
    ensures Lex(a + (x + d), room, lexer)
         == Onward(With(Emitted(a + [x[0]], |a|, lexer), token), d, room, lexer)
  {
    Placed(a, x, d);
    ReachesAlike(a, x[0], x[1..] + d, lexer);
    LexSplit(a + (x + d), |a|, room, lexer);
    OnwardFirst(Emitted(a + [x[0]], |a|, lexer), x, d, token, room, lexer);
  }
}

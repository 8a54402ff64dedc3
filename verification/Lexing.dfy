/** Lexing with any function that takes the next piece off a text, and joining the tokens again. */
module Lexing {
  import opened Common

  /** What is consumed next, and the token emitted for it. */
  datatype Piece = Piece(length: nat, token: Option<string>)

  type Lexer = string -> Piece

  /** The lexer always gets on. */
  ghost predicate Productive(lexer: Lexer) {
    forall s :: s != [] ==> 0 < lexer(s).length <= |s|
  }

  /** At most `room` tokens of a text. */
  function Lex(s: string, room: nat, lexer: Lexer): seq<string>
    requires Productive(lexer)
    decreases |s|
  {
    if s == [] || room == 0 then []
    else
      var piece := lexer(s);
      if piece.token.None? then Lex(s[piece.length..], room, lexer)
      else [piece.token.value] + Lex(s[piece.length..], room - 1, lexer)
  }

  function Join(tokens: seq<string>): string {
    if tokens == [] then "" else if |tokens| == 1 then tokens[0] else tokens[0] + " " + Join(tokens[1..])
  }

  lemma LexNothing(s: string, room: nat, lexer: Lexer)
    requires Productive(lexer) && (s == [] || room == 0)
    ensures Lex(s, room, lexer) == []
  {
  }

  /** One step, given the next piece. */
  lemma LexPiece(s: string, room: nat, piece: Piece, lexer: Lexer)
    requires Productive(lexer) && s != [] && room > 0 && piece == lexer(s)
    ensures Lex(s, room, lexer)
         == if piece.token.None? then Lex(s[piece.length..], room, lexer)
            else [piece.token.value] + Lex(s[piece.length..], room - 1, lexer)
  {
  }

  // ---------------------------------------------------------------- a loop over a text

  /** The tokens so far and the new one, if there is one. */
  function With(tokens: seq<string>, token: Option<string>): seq<string> {
    if token.Some? then tokens + [token.value] else tokens
  }

  /** The tokens already emitted and those still to come make up all of them. */
  ghost predicate OnTrack(text: string, index: nat, tokens: seq<string>, limit: nat, lexer: Lexer, all: seq<string>)
    requires Productive(lexer)
  {
    && index <= |text| && |tokens| <= limit
    && tokens + Lex(text[index..], limit - |tokens|, lexer) == all
  }

  lemma OnTrackStarts(text: string, limit: nat, lexer: Lexer)
    requires Productive(lexer)
    ensures OnTrack(text, 0, [], limit, lexer, Lex(text, limit, lexer))
  {
    assert text[0..] == text;
  }

  lemma Regroup(tokens: seq<string>, t: string, rest: seq<string>)
    ensures tokens + ([t] + rest) == (tokens + [t]) + rest
  {
  }

  lemma OnTrackStep(text: string, start: nat, index: nat, token: Option<string>, before: seq<string>, limit: nat,
                    lexer: Lexer, all: seq<string>)
    requires Productive(lexer) && OnTrack(text, start, before, limit, lexer, all) && |before| < limit
    requires start < index <= |text| && lexer(text[start..]) == Piece(index - start, token)
    ensures OnTrack(text, index, With(before, token), limit, lexer, all)
  {
    LexPiece(text[start..], limit - |before|, Piece(index - start, token), lexer);
    assert text[start..][index - start..] == text[index..];
    if token.Some? { Regroup(before, token.value, Lex(text[index..], limit - |before| - 1, lexer)); }
  }

  lemma OnTrackEnds(text: string, index: nat, tokens: seq<string>, limit: nat, lexer: Lexer, all: seq<string>)
    requires Productive(lexer) && OnTrack(text, index, tokens, limit, lexer, all)
    requires index == |text| || |tokens| == limit
    ensures tokens == all
  {
    LexNothing(text[index..], limit - |tokens|, lexer);
  }

  // ---------------------------------------------------------------- what is emitted

  /** Whatever the lexer emits is a token of the given vocabulary. */
  ghost predicate Speaks(lexer: Lexer, token: string -> bool) {
    forall s :: s != [] && lexer(s).token.Some? ==> token(lexer(s).token.value)
  }

  lemma {:induction false} LexSpeaks(s: string, room: nat, lexer: Lexer, token: string -> bool)
    requires Productive(lexer) && Speaks(lexer, token)
    ensures |Lex(s, room, lexer)| <= room
    ensures forall i :: 0 <= i < |Lex(s, room, lexer)| ==> token(Lex(s, room, lexer)[i])
    decreases |s|
  {
    if s == [] || room == 0 {
    } else {
      var piece := lexer(s);
      LexPiece(s, room, piece, lexer);
      LexSpeaks(s[piece.length..], if piece.token.None? then room else room - 1, lexer, token);
    }
  }

  // ---------------------------------------------------------------- lexing joined tokens

  /** A space or the end. */
  predicate Boundary(u: string) { u == [] || u[0] == ' ' }

  /** The lexer skips a space and reads every token back that ends at a boundary. */
  ghost predicate ReadsBack(lexer: Lexer, token: string -> bool) {
    && (forall t, u :: token(t) && Boundary(u) ==> t != [] && lexer(t + u) == Piece(|t|, Some(t)))
    && (forall s :: lexer(" " + s) == Piece(1, None))
  }

  lemma LexSpace(s: string, room: nat, lexer: Lexer, token: string -> bool)
    requires Productive(lexer) && ReadsBack(lexer, token)
    ensures Lex(" " + s, room, lexer) == Lex(s, room, lexer)
  {
    var u := " " + s;
    if room == 0 {
      LexNothing(u, room, lexer);
      LexNothing(s, room, lexer);
    } else {
      assert lexer(" " + s) == Piece(1, None);
      LexPiece(u, room, Piece(1, None), lexer);
      assert u[1..] == s;
    }
  }

  lemma LexToken(t: string, u: string, room: nat, lexer: Lexer, token: string -> bool)
    requires Productive(lexer) && ReadsBack(lexer, token) && token(t) && Boundary(u) && room > 0
    ensures Lex(t + u, room, lexer) == [t] + Lex(u, room - 1, lexer)
  {
    assert t != [] && lexer(t + u) == Piece(|t|, Some(t));
    LexPiece(t + u, room, Piece(|t|, Some(t)), lexer);
    assert (t + u)[|t|..] == u;
  }

  /** The tokens of a text made of one token, a space, and another text. */
  lemma LexMore(t: string, joined: string, room: nat, lexer: Lexer, token: string -> bool)
    requires Productive(lexer) && ReadsBack(lexer, token) && token(t) && room > 0
    ensures Lex(t + (" " + joined), room, lexer) == [t] + Lex(joined, room - 1, lexer)
  {
    LexToken(t, " " + joined, room, lexer, token);
    LexSpace(joined, room - 1, lexer, token);
  }

  lemma LexOne(t: string, room: nat, lexer: Lexer, token: string -> bool)
    requires Productive(lexer) && ReadsBack(lexer, token) && token(t) && room > 0
    ensures Lex(t, room, lexer) == [t]
  {
    LexToken(t, "", room, lexer, token);
    LexNothing("", room - 1, lexer);
    assert t + "" == t;
  }

  lemma JoinMore(t: string, rest: seq<string>)
    requires rest != []
    ensures Join([t] + rest) == t + (" " + Join(rest))
  {
    assert ([t] + rest)[1..] == rest;
  }

  lemma LexCons(t: string, rest: seq<string>, room: nat, lexer: Lexer, token: string -> bool)
    requires Productive(lexer) && ReadsBack(lexer, token) && token(t) && room > 0
    requires rest != [] && Lex(Join(rest), room - 1, lexer) == rest
    ensures Lex(Join([t] + rest), room, lexer) == [t] + rest
  {
    JoinMore(t, rest);
    LexMore(t, Join(rest), room, lexer, token);
  }

  /** Tokens joined by spaces lex back to themselves. */
  lemma {:induction false} LexJoin(tokens: seq<string>, room: nat, lexer: Lexer, token: string -> bool)
    requires Productive(lexer) && ReadsBack(lexer, token)
    requires |tokens| <= room && forall i :: 0 <= i < |tokens| ==> token(tokens[i])
    ensures Lex(Join(tokens), room, lexer) == tokens
  {
    if tokens == [] {
      LexNothing("", room, lexer);
    } else if |tokens| == 1 {
      LexOne(tokens[0], room, lexer, token);
    } else {
      LexJoin(tokens[1..], room - 1, lexer, token);
      LexCons(tokens[0], tokens[1..], room, lexer, token);
      assert tokens == [tokens[0]] + tokens[1..];
    }
  }

  // ---------------------------------------------------------------- a joined text cut short

  /** The tokens, each followed by a space. */
  function Lead(tokens: seq<string>): string {
    if tokens == [] then "" else tokens[0] + (" " + Lead(tokens[1..]))
  }

  /** The text after the last space. */
  function LastPiece(s: string): string {
    if s == "" || s[|s| - 1] == ' ' then "" else LastPiece(s[..|s| - 1]) + [s[|s| - 1]]
  }

  lemma LeadMore(t: string, rest: seq<string>)
    ensures Lead([t] + rest) == t + (" " + Lead(rest))
  {
    assert ([t] + rest)[1..] == rest;
  }

  lemma Reassociate(t: string, lead: string, p: string)
    ensures (t + (" " + lead)) + p == t + (" " + (lead + p))
  {
  }

  lemma Regroup3(t: string, rest: seq<string>, tail: seq<string>)
    ensures [t] + (rest + tail) == ([t] + rest) + tail
  {
  }

  lemma LeadFirst(tokens: seq<string>, p: string)
    requires tokens != []
    ensures Lead(tokens) + p == tokens[0] + (" " + (Lead(tokens[1..]) + p))
  {
    Reassociate(tokens[0], Lead(tokens[1..]), p);
  }

  /** A way of lexing that takes a token and its space off a text. */
  ghost predicate Peels(lex: (string, nat) -> seq<string>, token: string -> bool) {
    forall t, text, room: nat ::
      token(t) && room > 0 ==> lex(t + (" " + text), room) == [t] + lex(text, room - 1)
  }

  lemma {:induction false} PeelLead(tokens: seq<string>, p: string, room: nat, lex: (string, nat) -> seq<string>,
                                    token: string -> bool)
    requires Peels(lex, token) && |tokens| <= room && forall i :: 0 <= i < |tokens| ==> token(tokens[i])
    ensures lex(Lead(tokens) + p, room) == tokens + lex(p, room - |tokens|)
  {
    if tokens == [] {
      LeadNone(p);
    } else {
      PeelLead(tokens[1..], p, room - 1, lex, token);
      LeadFirst(tokens, p);
      assert lex(tokens[0] + (" " + (Lead(tokens[1..]) + p)), room)
        == [tokens[0]] + lex(Lead(tokens[1..]) + p, room - 1);
      Regroup3(tokens[0], tokens[1..], lex(p, room - |tokens|));
      assert tokens == [tokens[0]] + tokens[1..];
    }
  }

  function LexWith(lexer: Lexer): (string, nat) -> seq<string> requires Productive(lexer) {
    (s: string, room: nat) => Lex(s, room, lexer)
  }

  lemma LexPeels(lexer: Lexer, token: string -> bool)
    requires Productive(lexer) && ReadsBack(lexer, token)
    ensures Peels(LexWith(lexer), token)
  {
    var lex := LexWith(lexer);
    forall t, text, room: nat | token(t) && room > 0 ensures lex(t + (" " + text), room) == [t] + lex(text, room - 1) {
      LexMore(t, text, room, lexer, token);
    }
  }

  lemma LexLead(tokens: seq<string>, p: string, room: nat, lexer: Lexer, token: string -> bool)
    requires Productive(lexer) && ReadsBack(lexer, token)
    requires |tokens| <= room && forall i :: 0 <= i < |tokens| ==> token(tokens[i])
    ensures Lex(Lead(tokens) + p, room, lexer) == tokens + Lex(p, room - |tokens|, lexer)
  {
    LexPeels(lexer, token);
    PeelLead(tokens, p, room, LexWith(lexer), token);
  }

  lemma LeadNone(p: string)
    ensures Lead([]) + p == p
  {
  }

  lemma {:induction false} JoinLead(tokens: seq<string>, p: string)
    ensures Join(tokens + [p]) == Lead(tokens) + p
  {
    if tokens == [] {
      assert tokens + [p] == [p];
    } else {
      var t, rest := tokens[0], tokens[1..];
      JoinLead(rest, p);
      JoinMore(t, rest + [p]);
      Reassociate(t, Lead(rest), p);
      assert tokens + [p] == [t] + (rest + [p]);
    }
  }

  lemma LeadJoin(tokens: seq<string>)
    requires tokens != []
    ensures Lead(tokens) == Join(tokens) + " "
  {
    var n := |tokens| - 1;
    JoinLead(tokens[..n], tokens[n]);
    assert tokens == tokens[..n] + [tokens[n]];
    LeadAppend(tokens[..n], tokens[n]);
  }

  lemma {:induction false} LeadAppend(tokens: seq<string>, t: string)
    ensures Lead(tokens + [t]) == Lead(tokens) + t + " "
  {
    if tokens == [] {
      assert tokens + [t] == [t] + [];
      LeadMore(t, []);
    } else {
      LeadAppend(tokens[1..], t);
      LeadMore(tokens[0], tokens[1..] + [t]);
      assert tokens + [t] == [tokens[0]] + (tokens[1..] + [t]);
      assert tokens[0] + (" " + (Lead(tokens[1..]) + t + " ")) == (tokens[0] + (" " + Lead(tokens[1..]))) + t + " ";
    }
  }

  /** A cut text is some whole tokens and the beginning of the next. */
  ghost predicate CutAt(tokens: seq<string>, n: nat, m: nat, p: string) {
    && n <= |Join(tokens)| && m < |tokens| && p <= tokens[m] && (m > 0 || p != "")
    && Join(tokens)[..n] == Lead(tokens[..m]) + p
  }

  lemma {:induction false} CutSomewhere(tokens: seq<string>, n: nat) returns (m: nat, p: string)
    requires tokens != [] && 0 < n <= |Join(tokens)|
    ensures CutAt(tokens, n, m, p)
  {
    var t, rest := tokens[0], tokens[1..];
    if n <= |t| {
      m, p := 0, t[..n];
      CutFirst(tokens, n);
    } else {
      assert |tokens| > 1;
      JoinMore(t, rest);
      assert tokens == [t] + rest;
      if n == |t| + 1 {
        m, p := 1, "";
        CutSpace(tokens);
      } else {
        var k;
        k, p := CutSomewhere(rest, n - |t| - 1);
        m := k + 1;
        CutLater(tokens, n - |t| - 1, k, p);
      }
    }
  }

  lemma CutFirst(tokens: seq<string>, n: nat)
    requires tokens != [] && 0 < n <= |tokens[0]|
    ensures CutAt(tokens, n, 0, tokens[0][..n])
  {
    if |tokens| > 1 {
      JoinMore(tokens[0], tokens[1..]);
      assert tokens == [tokens[0]] + tokens[1..];
    }
    assert Join(tokens)[..n] == tokens[0][..n];
    assert Lead([]) + tokens[0][..n] == tokens[0][..n];
  }

  lemma CutSpace(tokens: seq<string>)
    requires |tokens| > 1
    ensures CutAt(tokens, |tokens[0]| + 1, 1, "")
  {
    var t, rest := tokens[0], tokens[1..];
    JoinMore(t, rest);
    assert tokens == [t] + rest && tokens[..1] == [t] + [];
    LeadMore(t, []);
    assert Join(tokens)[..|t| + 1] == t + " ";
    assert Lead(tokens[..1]) + "" == t + " ";
  }

  lemma CutLater(tokens: seq<string>, n: nat, k: nat, p: string)
    requires |tokens| > 1 && 0 < n && CutAt(tokens[1..], n, k, p)
    ensures CutAt(tokens, |tokens[0]| + 1 + n, k + 1, p)
  {
    var t, rest := tokens[0], tokens[1..];
    JoinMore(t, rest);
    assert tokens == [t] + rest && tokens[..k + 1] == [t] + rest[..k];
    LeadMore(t, rest[..k]);
    Reassociate(t, Lead(rest[..k]), p);
    assert (t + (" " + Join(rest)))[..|t| + 1 + n] == t + (" " + Join(rest)[..n]);
  }

  predicate Spaceless(s: string) { forall i :: 0 <= i < |s| ==> s[i] != ' ' }

  lemma {:induction false} LastPieceIs(lead: string, p: string)
    requires (lead == "" || lead[|lead| - 1] == ' ') && Spaceless(p)
    ensures LastPiece(lead + p) == p
  {
    if p == "" {
      assert lead + p == lead;
    } else {
      var n := |p| - 1;
      LastPieceIs(lead, p[..n]);
      assert (lead + p)[..|lead + p| - 1] == lead + p[..n];
      assert p == p[..n] + [p[n]];
    }
  }

  lemma LeadEnds(tokens: seq<string>)
    ensures Lead(tokens) == "" || Lead(tokens)[|Lead(tokens)| - 1] == ' '
  {
    if tokens != [] { LeadJoin(tokens); }
  }

  // ---------------------------------------------------------------- lexing a cut text

  function Cut(s: string, limit: nat): string { if |s| <= limit then s else s[..limit] }

  /** Whole tokens, a space and one more token. */
  lemma WholeAgain(tokens: seq<string>, p: string, room: nat, limit: nat, lexer: Lexer, token: string -> bool)
    requires Productive(lexer) && ReadsBack(lexer, token) && token(p)
    requires |tokens| < room && forall i :: 0 <= i < |tokens| ==> token(tokens[i])
    requires |Lead(tokens) + p| <= limit
    ensures Cut(Join(Lex(Lead(tokens) + p, room, lexer)), limit) == Lead(tokens) + p
    ensures Lex(Lead(tokens) + p, room, lexer) != []
  {
    LexLead(tokens, p, room, lexer, token);
    LexOne(p, room - |tokens|, lexer, token);
    JoinLead(tokens, p);
  }

  /** Whole tokens and a last space, which is lost. */
  lemma SpaceAgain(tokens: seq<string>, room: nat, limit: nat, lexer: Lexer, token: string -> bool)
    requires Productive(lexer) && ReadsBack(lexer, token) && tokens != []
    requires |tokens| < room && forall i :: 0 <= i < |tokens| ==> token(tokens[i])
    requires |Lead(tokens)| <= limit
    ensures Cut(Join(Lex(Lead(tokens), room, lexer)), limit) != Lead(tokens)
    ensures Lex(Lead(tokens), room, lexer) != []
  {
    LexLead(tokens, "", room, lexer, token);
    LexNothing("", room - |tokens|, lexer);
    assert Lead(tokens) + "" == Lead(tokens) && tokens + [] == tokens;
    LeadJoin(tokens);
  }

  /** Whole tokens, a space and a fragment that is read as another token. */
  lemma FragmentAgain(tokens: seq<string>, p: string, q: string, room: nat, limit: nat, lexer: Lexer,
                      token: string -> bool)
    requires Productive(lexer) && ReadsBack(lexer, token) && p != "" && p != q && |q| <= |p|
    requires lexer(p) == Piece(|p|, Some(q))
    requires |tokens| < room && forall i :: 0 <= i < |tokens| ==> token(tokens[i])
    requires |Lead(tokens) + p| <= limit
    ensures Cut(Join(Lex(Lead(tokens) + p, room, lexer)), limit) != Lead(tokens) + p
    ensures Lex(Lead(tokens) + p, room, lexer) != []
  {
    LexLead(tokens, p, room, lexer, token);
    LexPiece(p, room - |tokens|, Piece(|p|, Some(q)), lexer);
    LexNothing(p[|p|..], room - |tokens| - 1, lexer);
    assert Lex(p, room - |tokens|, lexer) == [q];
    JoinLead(tokens, q);
    var n := |Lead(tokens)|;
    assert (Lead(tokens) + p)[n..] == p && (Lead(tokens) + q)[n..] == q;
  }

  /** The beginning of a token is a token or a word the lexer reads as a placeholder of one character. */
  ghost predicate Fragments(lexer: Lexer, token: string -> bool, placeholder: string) {
    && |placeholder| == 1 && token(placeholder)
    && forall t, p :: token(t) && p <= t && p != "" && !token(p) ==> lexer(p) == Piece(|p|, Some(placeholder))
  }

  /** Lexing a cut text, joining and cutting again gives it back exactly if its last piece is a token. */
  lemma CutAgain(tokens: seq<string>, m: nat, p: string, room: nat, limit: nat, lexer: Lexer, token: string -> bool,
                 placeholder: string)
    requires Productive(lexer) && ReadsBack(lexer, token) && Fragments(lexer, token, placeholder)
    requires m < |tokens| <= room && forall i :: 0 <= i < |tokens| ==> token(tokens[i]) && Spaceless(tokens[i])
    requires p <= tokens[m] && (m > 0 || p != "") && !token("")
    requires |Lead(tokens[..m]) + p| <= limit
    ensures var s := Lead(tokens[..m]) + p;
      Lex(s, room, lexer) != [] && (Cut(Join(Lex(s, room, lexer)), limit) == s <==> token(LastPiece(s)))
  {
    var front, s := tokens[..m], Lead(tokens[..m]) + p;
    LeadEnds(front);
    LastPieceIs(Lead(front), p);
    if token(p) {
      WholeAgain(front, p, room, limit, lexer, token);
    } else if p == "" {
      SpaceAgain(front, room, limit, lexer, token);
      assert s == Lead(front);
    } else {
      FragmentAgain(front, p, placeholder, room, limit, lexer, token);
    }
  }

  /** The same for the text that any tokens are joined to. */
  lemma JoinedAgain(tokens: seq<string>, room: nat, limit: nat, lexer: Lexer, token: string -> bool,
                    placeholder: string)
    requires Productive(lexer) && ReadsBack(lexer, token) && Fragments(lexer, token, placeholder)
    requires 0 < |tokens| <= room && forall i :: 0 <= i < |tokens| ==> token(tokens[i]) && Spaceless(tokens[i])
    requires limit > 0 && !token("") && Join(tokens) != ""
    ensures var s := Cut(Join(tokens), limit);
      Lex(s, room, lexer) != [] && (Cut(Join(Lex(s, room, lexer)), limit) == s <==> token(LastPiece(s)))
  {
    var s := Cut(Join(tokens), limit);
    var m, p := CutSomewhere(tokens, |s|);
    CutIs(tokens, limit, m, p);
    CutAgain(tokens, m, p, room, limit, lexer, token, placeholder);
  }

  lemma CutIs(tokens: seq<string>, limit: nat, m: nat, p: string)
    requires CutAt(tokens, |Cut(Join(tokens), limit)|, m, p)
    ensures Cut(Join(tokens), limit) == Lead(tokens[..m]) + p
  {
    assert Join(tokens)[..|Cut(Join(tokens), limit)|] == Cut(Join(tokens), limit);
  }
}

/** What a line consists of, character by character: blanks, comments, words and quoted words
    (WDL/lineparse.h), and how a token is written (njclient.cpp). */
module LineTokens {
  import opened Options
  import opened LineParsing

  /** Spaces and tabs in front change nothing. */
  lemma {:induction false} BlanksInFront(c: char, rest: string, m: Mode)
    requires c == ' ' || c == '\t'
    ensures Tokens([c] + rest, m) == Tokens(rest, m)
  {
    hide Tokens, TokensHere;
    var k := Blanks(rest);
    var s := [c] + rest;
    assert forall i :: 0 <= i < k ==> s[i + 1] == rest[i];
    assert s[1 + k..] == rest[k..];
    TokensAre(s, m, 1 + k);
    TokensAre(rest, m, k);
  }

  lemma NothingLeft(m: Mode)
    ensures Tokens("", m) == Some([])
  {
  }

  /** From # or ; on nothing is read, unless comments are ignored. */
  lemma CommentEndsLine(c: char, rest: string, m: Mode)
    requires (c == '#' || c == ';') && !m.ignoreComments
    ensures Tokens([c] + rest, m) == Some([])
  {
    TokensAre([c] + rest, m, 0);
  }

  /** What opens a quoted word. */
  predicate Quotes(c: char, m: Mode) {
    c == '"' || c == '\'' || (c == '`' && m.backtickQuotes)
  }

  /** A word begins with no quote and no comment, and has no blank in it. */
  predicate Word(w: string, m: Mode) {
    && w != "" && !Quotes(w[0], m) && (m.ignoreComments || (w[0] != '#' && w[0] != ';'))
    && forall i :: 0 <= i < |w| ==> w[i] != ' ' && w[i] != '\t'
  }

  function With(t: string, r: Option<seq<string>>): Option<seq<string>> {
    if r.None? then None else Some([t] + r.value)
  }

  /** A word is a token; it ends at a blank or at the end of the line. */
  lemma WordIsToken(w: string, c: char, rest: string, m: Mode)
    requires Word(w, m) && (c == ' ' || c == '\t')
    ensures Tokens(w, m) == Some([w]) && Tokens(w + [c] + rest, m) == With(w, Tokens(rest, m))
  {
    hide Tokens;
    UntilIs(w, "", {' ', '\t'});
    assert w + "" == w;
    TokensAre(w, m, 0);
    var s := w + ([c] + rest);
    UntilIs(w, [c] + rest, {' ', '\t'});
    assert s[|w| + 1..] == rest && s == w + [c] + rest;
    TokensAre(s, m, 0);
  }

  /** A quoted word is a token without its quotes, whatever else is in it; a quote that stays open
      runs to the end of the line, or spoils it. */
  lemma QuotedWordIsToken(q: char, body: string, rest: string, m: Mode)
    requires Quotes(q, m) && q !in body
    ensures Tokens([q] + body + [q] + rest, m) == With(body, Tokens(rest, m))
    ensures Tokens([q] + body, m) == if m.allowUnterminated then Some([body]) else None
  {
    hide Tokens;
    var inner := body + ([q] + rest);
    UntilIs(body, [q] + rest, {q});
    assert inner[|body| + 1..] == rest && [q] + body + [q] + rest == [q] + inner && ([q] + inner)[1..] == inner;
    TokensAre([q] + inner, m, 0);
    UntilIs(body, "", {q});
    assert body + "" == body && ([q] + body)[1..] == body;
    TokensAre([q] + body, m, 0);
  }

  predicate Bare(tok: string) {
    && tok != "" && tok[0] !in {'"', '\'', '`', '#', ';'}
    && forall i :: 0 <= i < |tok| ==> tok[i] !in {' ', '\t', '\n', '\r'}
  }

  /** How one token is written: bare when it has no white space and begins with no quote and no
      comment; else in the first kind of quotes that is not in it, and in backticks, with underscores
      for those in it, when all three are. */
  lemma WrittenForms(tok: string)
    ensures Bare(tok) ==> Quoted(tok) == " " + tok
    ensures !Bare(tok) && '"' !in tok ==> Quoted(tok) == " \"" + tok + "\""
    ensures !Bare(tok) && '"' in tok && '\'' !in tok ==> Quoted(tok) == " '" + tok + "'"
    ensures !Bare(tok) && '"' in tok && '\'' in tok && '`' !in tok ==> Quoted(tok) == " `" + tok + "`"
    ensures !Bare(tok) && '"' in tok && '\'' in tok && '`' in tok ==>
              var r := Quoted(tok);
              && |r| == |tok| + 3 && r[..2] == " `" && r[|r| - 1] == '`'
              && forall i :: 0 <= i < |tok| ==> r[i + 2] == if tok[i] == '`' then '_' else tok[i]
  {
    hide Replaced;
    assert " \"" == " " + ['"'] && " '" == " " + ['\''] && " `" == " " + ['`'] && "\"" == ['"'] && "'" == ['\''] && "`" == ['`'];
  }
}

/** Writing tokens on a log line (njclient.cpp) and reading them back (WDL/lineparse.h). */
module LineParsing {
  import opened Sequences
  import opened Options

  const NUL := '\0'

  predicate Blank(c: char) {
    c == ' ' || c == '\t'
  }

  predicate QuoteMark(c: char) {
    c == '"' || c == '\'' || c == '`'
  }

  predicate White(c: char) {
    c == ' ' || c == '\t' || c == '\n' || c == '\r'
  }

  predicate Comment(c: char) {
    c == '#' || c == ';'
  }

  /** How many characters come before the first one in stops. */
  function Until(s: string, stops: set<char>): (n: nat)
    ensures n <= |s| && (n < |s| ==> s[n] in stops)
    ensures forall i :: 0 <= i < n ==> s[i] !in stops
  {
    if s == [] || s[0] in stops then 0 else 1 + Until(s[1..], stops)
  }

  /** How many blanks come first. */
  function Blanks(s: string): (n: nat)
    ensures n <= |s| && (n < |s| ==> !Blank(s[n]))
    ensures forall i :: 0 <= i < n ==> Blank(s[i])
  {
    if s == [] || !Blank(s[0]) then 0 else 1 + Blanks(s[1..])
  }

  datatype Mode = Mode(ignoreComments: bool, backtickQuotes: bool, allowUnterminated: bool)

  predicate Opens(c: char, m: Mode) {
    c == '"' || c == '\'' || (c == '`' && m.backtickQuotes)
  }

  function Prepend(ts: seq<string>, r: Option<seq<string>>): Option<seq<string>> {
    if r.Some? then Some(ts + r.value) else None
  }

  /** Where a token that starts with c ends. */
  function StopsFor(c: char, m: Mode): set<char> {
    if Opens(c, m) then {c} else {' ', '\t'}
  }

  /** What follows an opening quote, if there is one. */
  function BodyOf(text: string, m: Mode): (r: string)
    requires text != ""
    ensures |r| <= |text|
  {
    if Opens(text[0], m) then text[1..] else text
  }

  /** The tokens of a line; None when a quote is not closed. */
  function Tokens(line: string, m: Mode): Option<seq<string>>
    decreases |line|, 1
  {
    TokensHere(line[Blanks(line)..], m)
  }

  /** The same for a line that starts with no blank. */
  function TokensHere(s: string, m: Mode): Option<seq<string>>
    decreases |s|, 0
  {
    if s == "" || (Comment(s[0]) && !m.ignoreComments) then Some([])
    else
      var body := BodyOf(s, m);
      var n := Until(body, StopsFor(s[0], m));
      if n == |body| then (if Opens(s[0], m) && !m.allowUnterminated then None else Some([body]))
      else Prepend([body[..n]], Tokens(body[n + 1..], m))
  }

  // ----- writing -----

  /** The character to quote a token with; a blank when it needs none, NUL when none will do. */
  function QuoteChar(p: string): char {
    if p == "" then '"'
    else if (forall i :: 0 <= i < |p| ==> !White(p[i])) && !QuoteMark(p[0]) && !Comment(p[0]) then ' '
    else if '"' !in p then '"'
    else if '\'' !in p then '\''
    else if '`' !in p then '`'
    else NUL
  }

  method GetConfigStringQuoteChar(p: string) returns (q: char)
    ensures q == QuoteChar(p)
  {
    if p == "" {
      return '"';
    }
    var double_, single, back, blank := false, false, false, false;
    var i := 0;
    while i < |p| && !(double_ && single && back && blank)
      invariant i <= |p|
      invariant double_ <==> '"' in p[..i]
      invariant single <==> '\'' in p[..i]
      invariant back <==> '`' in p[..i]
      invariant blank <==> exists k :: 0 <= k < i && White(p[k])
    {
      assert p[..i + 1] == p[..i] + [p[i]];
      if p[i] == '"' {
        double_ := true;
      } else if p[i] == '\'' {
        single := true;
      } else if p[i] == '`' {
        back := true;
      } else if White(p[i]) {
        blank := true;
      }
      i := i + 1;
    }
    Prefixed(p, i);
    if !blank && !QuoteMark(p[0]) && !Comment(p[0]) {
      return ' ';
    }
    return if !double_ then '"' else if !single then '\'' else if !back then '`' else NUL;
  }

  lemma Prefixed(p: string, i: nat)
    requires i <= |p|
    ensures forall c :: c in p[..i] ==> c in p
    ensures i == |p| ==> p[..i] == p
  {
  }

  function Replaced(s: string, from: set<char>, mark: char): (r: string)
    ensures |r| == |s|
    ensures forall i :: 0 <= i < |s| ==> r[i] == if s[i] in from then mark else s[i]
  {
    seq(|s|, i requires 0 <= i < |s| => if s[i] in from then mark else s[i])
  }

  /** A token as it is written, before line ends are removed. */
  function Quoted(tok: string): string {
    var q := QuoteChar(tok);
    if q == ' ' then " " + tok
    else if q != NUL then " " + [q] + tok + [q]
    else " `" + Replaced(tok, {'`'}, '_') + "`"
  }

  function QuotedAll(toks: seq<string>): string {
    if toks == [] then "" else Quoted(toks[0]) + QuotedAll(toks[1..])
  }

  /** The line, without line ends. */
  function Printed(toks: seq<string>): string {
    Replaced(QuotedAll(toks), {'\r', '\n'}, ' ')
  }

  method PrintToken(buf: string, rd: string) returns (r: string)
    ensures r == buf + Quoted(rd)
  {
    hide QuoteChar;
    var f := GetConfigStringQuoteChar(rd);
    if f == ' ' {
      r := buf + (" " + rd);
    } else if f != NUL {
      r := buf + (" " + [f] + rd + [f]);
    } else {
      var more := " `" + rd + "`";
      assert more[..2] == " `" && more[2..|more| - 1] == rd && more[|more| - 1..] == "`";
      r := FilterBackticks(buf, more);
    }
  }

  method StripLineEnds(all: string) returns (buf: string)
    ensures buf == Replaced(all, {'\r', '\n'}, ' ')
  {
    buf := all;
    for i := 0 to |all|
      invariant |buf| == |all|
      invariant forall k :: 0 <= k < |all| ==> buf[k] == if k < i && all[k] in {'\r', '\n'} then ' ' else all[k]
    {
      if buf[i] == '\r' || buf[i] == '\n' {
        buf := buf[i := ' '];
      }
    }
  }

  method Print(toks: seq<string>) returns (buf: string)
    ensures buf == Printed(toks)
  {
    hide Quoted, Replaced;
    buf := "";
    assert toks[0..] == toks;
    for x := 0 to |toks|
      invariant buf + QuotedAll(toks[x..]) == QuotedAll(toks)
    {
      assert toks[x..][1..] == toks[x + 1..];
      Regroup(buf, Quoted(toks[x]), QuotedAll(toks[x + 1..]));
      buf := PrintToken(buf, toks[x]);
    }
    assert toks[|toks|..] == [];
    buf := StripLineEnds(buf);
  }

  /** Appends a token in backticks; those inside it become underscores. */
  method FilterBackticks(buf: string, more: string) returns (r: string)
    requires |more| >= 3 && more[0] == ' ' && more[1] == '`'
    ensures r == buf + (more[..2] + Replaced(more[2..|more| - 1], {'`'}, '_') + more[|more| - 1..])
  {
    r := buf + more;
    var start := |buf| + 1;
    for p := start + 1 to |r|
      invariant |r| == |buf| + |more|
      invariant forall k :: 0 <= k < |r| ==> r[k] == if start < k < p && k + 1 < |r| && (buf + more)[k] == '`' then '_' else (buf + more)[k]
    {
      if r[p] == '`' && p + 1 < |r| {
        r := r[p := '_'];
      }
    }
  }

  // ----- reading back what was written -----

  /** The token that is read back. */
  function Clean(tok: string): string {
    Replaced(if QuoteChar(tok) == NUL then Replaced(tok, {'`'}, '_') else tok, {'\r', '\n'}, ' ')
  }

  function CleanAll(toks: seq<string>): seq<string> {
    seq(|toks|, i requires 0 <= i < |toks| => Clean(toks[i]))
  }

  lemma TokensAre(line: string, m: Mode, k: nat)
    requires k <= |line| && (forall i :: 0 <= i < k ==> Blank(line[i])) && (k < |line| ==> !Blank(line[k]))
    ensures Tokens(line, m) == TokensHere(line[k..], m)
  {
    hide TokensHere;
    BlanksExact(line, k);
  }

  /** Blanks in front of a line do not matter. */
  lemma TokensSkip(rest: string, m: Mode)
    requires rest != "" && rest[0] == ' '
    ensures Tokens(rest[1..], m) == Tokens(rest, m)
  {
    hide Tokens, TokensHere;
    var k := Blanks(rest[1..]);
    assert rest[1..][k..] == rest[1 + k..];
    TokensAre(rest, m, 1 + k);
    TokensAre(rest[1..], m, k);
  }

  lemma UntilIs(body: string, rest: string, stops: set<char>)
    requires forall i :: 0 <= i < |body| ==> body[i] !in stops
    requires rest == "" || rest[0] in stops
    ensures Until(body + rest, stops) == |body| && (body + rest)[..|body|] == body
  {
    var n, s := Until(body + rest, stops), body + rest;
    assert rest != "" ==> s[|body|] == rest[0];
  }

  lemma ReadQuoted(q: char, body: string, rest: string, m: Mode)
    requires Opens(q, m) && q !in body
    ensures Tokens(" " + [q] + body + [q] + rest, m) == Prepend([body], Tokens(rest, m))
  {
    hide Tokens;
    var s := " " + [q] + body + [q] + rest;
    assert s[1..][1..] == body + [q] + rest;
    var inner := body + ([q] + rest);
    assert body + [q] + rest == inner;
    UntilIs(body, [q] + rest, {q});
    assert inner[|body| + 1..] == rest;
    TokensAre(s, m, 1);
    assert s[1..] == [q] + inner;
  }

  lemma ReadBare(tok: string, rest: string, m: Mode)
    requires QuoteChar(tok) == ' ' && (rest == "" || rest[0] == ' ')
    ensures Tokens(" " + tok + rest, m) == Prepend([tok], Tokens(rest, m))
  {
    hide Tokens;
    var s := " " + tok + rest;
    var n := |tok|;
    UntilIs(tok, rest, {' ', '\t'});
    assert s[1..] == tok + rest;
    TokensAre(s, m, 1);
    if rest == "" {
      assert tok + rest == tok && [tok] + [] == [tok];
      TokensAre("", m, 0);
    } else {
      assert (tok + rest)[n + 1..] == rest[1..];
      TokensSkip(rest, m);
    }
  }

  lemma ReplacedAppend(a: string, b: string, from: set<char>, mark: char)
    ensures Replaced(a + b, from, mark) == Replaced(a, from, mark) + Replaced(b, from, mark)
  {
  }

  /** Without line ends, a token is still quoted the same way. */
  lemma QuotedClean(tok: string)
    ensures Replaced(Quoted(tok), {'\r', '\n'}, ' ') ==
            if QuoteChar(tok) == ' ' then " " + tok
            else var q := if QuoteChar(tok) == NUL then '`' else QuoteChar(tok); " " + [q] + Clean(tok) + [q]
    ensures QuoteChar(tok) == ' ' ==> Clean(tok) == tok
    ensures QuoteChar(tok) != ' ' ==>
              var q := if QuoteChar(tok) == NUL then '`' else QuoteChar(tok);
              q in {'"', '\'', '`'} && q !in Clean(tok)
  {
    var c := QuoteChar(tok);
    if c == ' ' {
      assert Replaced(tok, {'\r', '\n'}, ' ') == tok;
    } else {
      var q := if c == NUL then '`' else c;
      var inner := if c == NUL then Replaced(tok, {'`'}, '_') else tok;
      assert q !in inner;
      assert Quoted(tok) == " " + [q] + inner + [q];
    }
  }

  lemma PrintedCons(toks: seq<string>)
    requires toks != []
    ensures Printed(toks) == Replaced(Quoted(toks[0]), {'\r', '\n'}, ' ') + Printed(toks[1..])
  {
    hide Quoted, Replaced;
    ReplacedAppend(Quoted(toks[0]), QuotedAll(toks[1..]), {'\r', '\n'}, ' ');
  }

  lemma PrintedStartsBlank(toks: seq<string>)
    ensures Printed(toks) == "" || Printed(toks)[0] == ' '
  {
    if toks != [] {
      PrintedCons(toks);
      QuotedClean(toks[0]);
      hide Quoted, QuoteChar, Replaced, Clean;
    }
  }

  /** Any tokens at all, written and read back, are the same tokens, with line ends turned into
      blanks, and backticks into underscores in those that contain every quote mark. */
  lemma {:induction false} PrintThenParse(toks: seq<string>, m: Mode)
    requires m.backtickQuotes
    ensures Tokens(Printed(toks), m) == Some(CleanAll(toks))
  {
    hide Quoted, Replaced, Tokens, QuoteChar, Clean;
    if toks == [] {
      NothingPrinted(m);
    } else {
      var tok, rest := toks[0], Printed(toks[1..]);
      PrintThenParse(toks[1..], m);
      PrintedCons(toks);
      PrintedStartsBlank(toks[1..]);
      QuotedClean(tok);
      if QuoteChar(tok) == ' ' {
        ReadBare(tok, rest, m);
      } else {
        var q := if QuoteChar(tok) == NUL then '`' else QuoteChar(tok);
        ReadQuoted(q, Clean(tok), rest, m);
      }
      assert CleanAll(toks) == [Clean(tok)] + CleanAll(toks[1..]);
    }
  }

  lemma NothingPrinted(m: Mode)
    ensures Printed([]) == "" && Tokens("", m) == Some([]) && CleanAll([]) == []
  {
    TokensAre("", m, 0);
  }

  /** The log line: a word without quote marks, then the tokens. */
  lemma LogLineReadsBack(head: string, toks: seq<string>, m: Mode)
    requires m.backtickQuotes && QuoteChar(head) == ' '
    ensures Tokens(head + Printed(toks), m) == Some([head] + CleanAll(toks))
  {
    hide Replaced, Tokens, Clean, QuotedAll, Printed;
    PrintThenParse(toks, m);
    PrintedStartsBlank(toks);
    ReadBare(head, Printed(toks), m);
    var line := " " + head + Printed(toks);
    assert line[1..] == head + Printed(toks);
    TokensSkip(line, m);
  }

  /** A token comes back unchanged exactly when it has no line end and some quote mark fits. */
  lemma UnchangedIff(tok: string)
    ensures Clean(tok) == tok <==> QuoteChar(tok) != NUL && '\r' !in tok && '\n' !in tok
  {
    if QuoteChar(tok) == NUL {
      var k :| 0 <= k < |tok| && tok[k] == '`';
      assert Clean(tok)[k] == '_';
    } else if '\r' in tok || '\n' in tok {
      var k :| 0 <= k < |tok| && tok[k] in {'\r', '\n'};
      assert Clean(tok)[k] == ' ';
    } else {
      assert forall k :: 0 <= k < |tok| ==> tok[k] !in {'\r', '\n'};
      assert Clean(tok) == tok;
    }
  }

  // ----- parsing in place -----

  /** The text at an index of a buffer, up to its NUL. */
  ghost predicate TextAt(line: array<char>, from: nat, s: string)
    reads line
  {
    && from + |s| < line.Length && line[from + |s|] == NUL
    && forall i :: 0 <= i < |s| ==> line[from + i] == s[i] != NUL
  }

  class LineParser {
    var tokens: seq<nat> // where each token starts in the line

    constructor ()
      ensures tokens == []
    {
      tokens := [];
    }

    /** What the token indices stand for. */
    ghost predicate Read(line: array<char>, ts: seq<string>)
      reads this, line
    {
      |tokens| == |ts| && forall i :: 0 <= i < |ts| ==> TextAt(line, tokens[i], ts[i])
    }

    /** The tokens so far stand for these, all before an index. */
    ghost predicate SoFar(line: array<char>, done: seq<string>, pos: nat)
      reads this, line
    {
      |tokens| == |done| && forall i :: 0 <= i < |done| ==> TextAt(line, tokens[i], done[i]) && tokens[i] + |done[i]| < pos
    }

    method Keep(line: array<char>, start: nat, ghost tok: string, ghost done: seq<string>)
      requires TextAt(line, start, tok) && SoFar(line, done, start)
      modifies `tokens
      ensures Read(line, done + [tok])
      ensures forall pos :: start + |tok| < pos ==> SoFar(line, done + [tok], pos)
    {
      hide TextAt;
      tokens := tokens + [start];
    }

    /** Cuts the next token, which starts with the text, out of the line. */
    method CutToken(line: array<char>, from: nat, m: Mode, c: char, ghost text: string, ghost done: seq<string>)
      returns (end: nat, last: bool, ghost body: string, ghost n: nat)
      requires TextAt(line, from, text) && text != "" && c == text[0] && SoFar(line, done, from)
      modifies `tokens, line
      ensures body == BodyOf(text, m) && n == Until(body, StopsFor(c, m)) && last == (n == |body|)
      ensures Read(line, done + [body[..n]]) && forall pos :: end < pos ==> SoFar(line, done + [body[..n]], pos)
      ensures !last ==> TextAt(line, end + 1, body[n + 1..])
    {
      hide TextAt, Until, Opens;
      body := BodyOf(text, m);
      var start := if Opens(c, m) then from + 1 else from;
      TextTail(line, from, text, start - from);
      end := ScanToken(line, start, StopsFor(c, m), body);
      n := end - start;
      last := CutAt(line, start, end, body, tokens, done);
      Keep(line, start, body[..n], done);
    }

    /** One turn of the parser: a token, and the blanks behind it. */
    method NextToken(line: array<char>, from: nat, m: Mode, ghost text: string, ghost done: seq<string>)
      returns (ok: bool, more: bool, pos: nat, ghost rest: string, ghost found: seq<string>)
      requires TextAt(line, from, text) && text != "" && !Blank(text[0]) && SoFar(line, done, from)
      modifies this, line
      ensures if ok then Tokens(text, m) == Prepend(found, if more then Tokens(rest, m) else Some([])) else Tokens(text, m) == None
      ensures ok ==> Read(line, done + found)
      ensures more ==> ok && TextAt(line, pos, rest) && rest != "" && !Blank(rest[0]) && |rest| < |text| && SoFar(line, done + found, pos)
    {
      hide Tokens, TextAt, Until, Comment, Prepend, Blanks, Opens, Blank, BodyOf, StopsFor, LineParser.SoFar;
      OneTurn(text, m);
      ok, more, pos, rest, found := true, false, from, "", [];
      var c := FirstOf(line, from, text);
      if Comment(c) && !m.ignoreComments {
        StillRead(line, done, from);
        assert done + [] == done;
        return;
      }
      var end, last;
      ghost var body, n;
      end, last, body, n := CutToken(line, from, m, c, text, done);
      found := [body[..n]];
      if last {
        ok := !Opens(c, m) || m.allowUnterminated;
      } else {
        rest := body[n + 1..];
        pos := SkipBlanks(line, end + 1, rest);
        rest := rest[Blanks(rest)..];
        more := AtText(line, pos, rest);
      }
    }

    lemma StillRead(line: array<char>, done: seq<string>, pos: nat)
      requires SoFar(line, done, pos)
      ensures Read(line, done)
    {
    }

    /** 0, or -2 when a quote is not closed; the tokens are cut out of the line itself. */
    method ParseDestroyBuffer(line: array<char>, m: Mode, ghost text: string) returns (res: int)
      requires TextAt(line, 0, text)
      modifies this, line
      ensures res == if Tokens(text, m).Some? then 0 else -2
      ensures if res == 0 then Read(line, Tokens(text, m).value) else tokens == []
    {
      hide Tokens, TextAt;
      tokens := [];
      ghost var done: seq<string> := [];
      TokensFrom(text, m);
      var pos := SkipBlanks(line, 0, text);
      ghost var rest := text[pos..];
      PrependNothing(Tokens(text, m));
      var more := AtText(line, pos, rest);
      while more
        invariant Read(line, done)
        invariant more ==> TextAt(line, pos, rest) && rest != "" && !Blank(rest[0]) && SoFar(line, done, pos)
        invariant Tokens(text, m) == if more then Prepend(done, Tokens(rest, m)) else Some(done)
        decreases more, |rest|
      {
        var ok;
        ghost var after, found;
        ok, more, pos, after, found := NextToken(line, pos, m, rest, done);
        if !ok {
          tokens := [];
          return -2;
        }
        PrependTwice(done, found, if more then Tokens(after, m) else Some([]));
        done, rest := done + found, after;
        PrependNone(done);
      }
      return 0;
    }
  }

  /** The tokens of a line, by the first of them. */
  lemma OneTurn(text: string, m: Mode)
    requires text != "" && !Blank(text[0])
    ensures if Comment(text[0]) && !m.ignoreComments then Tokens(text, m) == Prepend([], Some([]))
            else
              var body := BodyOf(text, m);
              var n := Until(body, StopsFor(text[0], m));
              if n < |body| then
                var rest := body[n + 1..][Blanks(body[n + 1..])..];
                && Tokens(text, m) == Prepend([body[..n]], if rest == "" then Some([]) else Tokens(rest, m))
                && (rest != "" ==> !Blank(rest[0])) && |rest| < |text|
              else Tokens(text, m) == if Opens(text[0], m) && !m.allowUnterminated then None else Prepend([body[..n]], Some([]))
  {
    hide Tokens, Until, Blanks, Opens, BodyOf, StopsFor;
    TokensAre(text, m, 0);
    assert text[0..] == text;
    PrependNone([]);
    if !(Comment(text[0]) && !m.ignoreComments) {
      var body := BodyOf(text, m);
      var n := Until(body, StopsFor(text[0], m));
      hide Prepend;
      if n < |body| {
        TokensFrom(body[n + 1..], m);
      } else {
        assert body[..n] == body;
        PrependNone([body]);
      }
    }
  }

  method AtText(line: array<char>, pos: nat, ghost rest: string) returns (more: bool)
    requires TextAt(line, pos, rest)
    ensures more <==> rest != ""
  {
    assert rest != "" ==> line[pos] == rest[0];
    more := line[pos] != NUL;
  }

  method FirstOf(line: array<char>, pos: nat, ghost rest: string) returns (c: char)
    requires TextAt(line, pos, rest) && rest != ""
    ensures c == rest[0]
  {
    c := line[pos];
  }

  lemma TextTail(line: array<char>, from: nat, s: string, k: nat)
    requires TextAt(line, from, s) && k <= |s|
    ensures TextAt(line, from + k, s[k..])
  {
  }

  /** The index of the first character in stops, or of the final NUL. */
  method ScanToken(line: array<char>, start: nat, stops: set<char>, ghost body: string) returns (end: nat)
    requires TextAt(line, start, body)
    ensures end == start + Until(body, stops)
  {
    end := start;
    while line[end] != NUL && line[end] !in stops
      invariant start <= end <= start + |body|
      invariant forall i :: 0 <= i < end - start ==> body[i] !in stops
      decreases start + |body| - end
    {
      end := end + 1;
    }
    UntilExact(body, stops, end - start);
  }

  /** Ends a token with a NUL; the tokens before it and the text behind it stay. */
  method CutAt(line: array<char>, start: nat, end: nat, ghost body: string, ghost tokens: seq<nat>, ghost done: seq<string>)
    returns (last: bool)
    requires TextAt(line, start, body) && start <= end <= start + |body|
    requires |tokens| == |done| && forall i :: 0 <= i < |done| ==> TextAt(line, tokens[i], done[i]) && tokens[i] + |done[i]| < start
    modifies line
    ensures last <==> end == start + |body|
    ensures TextAt(line, start, body[..end - start])
    ensures !last ==> TextAt(line, end + 1, body[end - start + 1..])
    ensures forall i :: 0 <= i < |done| ==> TextAt(line, tokens[i], done[i])
  {
    assert end < start + |body| ==> line[end] == body[end - start];
    last := line[end] == NUL;
    line[end] := NUL;
  }

  lemma PrependNothing(r: Option<seq<string>>)
    ensures Prepend([], r) == r
  {
    if r.Some? {
      assert [] + r.value == r.value;
    }
  }

  lemma PrependNone(done: seq<string>)
    ensures Prepend(done, Some([])) == Some(done)
  {
    assert done + [] == done;
  }

  lemma PrependTwice(done: seq<string>, found: seq<string>, r: Option<seq<string>>)
    ensures Prepend(done, Prepend(found, r)) == Prepend(done + found, r)
  {
    if r.Some? {
      assert done + (found + r.value) == done + found + r.value;
    }
  }

  lemma UntilExact(s: string, stops: set<char>, n: nat)
    requires n <= |s| && (n < |s| ==> s[n] in stops) && forall i :: 0 <= i < n ==> s[i] !in stops
    ensures Until(s, stops) == n
  {
    var k := Until(s, stops);
    assert k < |s| ==> s[k] in stops;
  }

  lemma BlanksExact(s: string, n: nat)
    requires n <= |s| && (n < |s| ==> !Blank(s[n])) && forall i :: 0 <= i < n ==> Blank(s[i])
    ensures Blanks(s) == n
  {
    var k := Blanks(s);
    assert k < |s| ==> !Blank(s[k]);
  }

  method SkipBlanks(line: array<char>, from: nat, ghost s: string) returns (pos: nat)
    requires TextAt(line, from, s)
    ensures pos == from + Blanks(s) && TextAt(line, pos, s[Blanks(s)..])
  {
    pos := from;
    while line[pos] == ' ' || line[pos] == '\t'
      invariant from <= pos <= from + |s| && forall i :: 0 <= i < pos - from ==> Blank(s[i])
      decreases from + |s| - pos
    {
      pos := pos + 1;
    }
    BlanksExact(s, pos - from);
  }

  lemma TokensFrom(s: string, m: Mode)
    ensures Tokens(s, m) == Tokens(s[Blanks(s)..], m) && (s[Blanks(s)..] == "" ==> Tokens(s, m) == Some([]))
  {
    hide TokensHere, Tokens;
    var k := Blanks(s);
    TokensAre(s, m, k);
    TokensAre(s[k..], m, 0);
    NoTokens(m);
  }

  lemma NoTokens(m: Mode)
    ensures TokensHere("", m) == Some([])
  {
  }
}

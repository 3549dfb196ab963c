/** Single-quoting for a shell line, read back by the shell's quoting and token rules. */
module ShellQuote {
  import opened Prelude
  import opened Text

  function Quote(v: string): string {
    "'" + Replace(v, "'", "'\\''", -1) + "'"
  }

  /** Arguments side by side on a command line. */
  function Line(vs: seq<string>): string {
    if vs == [] then ""
    else if |vs| == 1 then Quote(vs[0])
    else Quote(vs[0]) + " " + Line(vs[1..])
  }

  // ---------------------------------------------------------------------------
  // The shell's reading
  // ---------------------------------------------------------------------------

  /** Tokens delimited so far, and the token being built, if one has begun. */
  datatype Lexer = Lexer(tokens: seq<string>, token: Option<string>)
  {
    function Push(c: char): Lexer {
      this.(token := Some((if token.Some? then token.value else "") + [c]))
    }

    /** A quote begins a token even when nothing is quoted. */
    function Begin(): Lexer {
      this.(token := Some(if token.Some? then token.value else ""))
    }

    function Delimit(): Lexer {
      if token.Some? then Lexer(tokens + [token.value], None) else this
    }
  }

  /** Characters that are not plain in an unquoted word: operators, expansions, the double quote, patterns,
      comments and the newline. Reading them is outside these sections. */
  predicate Special(c: char) {
    c in "|&;<>()$`\"\n*?[]#~=%!{}"
  }

  /** Reading outside quotes. None is a line these sections alone do not decide. */
  function Plain(s: string, l: Lexer): Option<seq<string>>
    decreases |s|
  {
    if s == "" then Some(l.Delimit().tokens)
    else if s[0] == ' ' || s[0] == '\t' then Plain(s[1..], l.Delimit())
    else if s[0] == '\'' then Quoted(s[1..], l.Begin())
    else if s[0] == '\\' then
      if |s| == 1 then None
      else if s[1] == '\n' then Plain(s[2..], l)
      else Plain(s[2..], l.Push(s[1]))
    else if Special(s[0]) then None
    else Plain(s[1..], l.Push(s[0]))
  }

  /** Reading inside single quotes: everything is literal up to the next one. */
  function Quoted(s: string, l: Lexer): Option<seq<string>>
    decreases |s|
  {
    if s == "" then None
    else if s[0] == '\'' then Plain(s[1..], l)
    else Quoted(s[1..], l.Push(s[0]))
  }

  /** The quoting and token rules of sections 2.2.1, 2.2.2 and 2.3 of the POSIX Shell Command Language. */
  function Lex(s: string): Option<seq<string>> {
    Plain(s, Lexer([], None))
  }

  // ---------------------------------------------------------------------------
  // Round trip
  // ---------------------------------------------------------------------------

  /** A closing quote, an escaped quote and an opening quote put one quote into the token. */
  lemma ReadEscape(rest: string, l: Lexer)
    requires l.token.Some?
    ensures Quoted("'\\''" + rest, l) == Quoted(rest, l.Push('\''))
  {
    var s := "'\\''" + rest;
    var t, u := s[1..], s[1..][2..];
    assert t == "\\''" + rest && t[0] == '\\' && t[1] == '\'';
    assert u == "'" + rest && u[1..] == rest;
    assert Plain(t, l) == Plain(u, l.Push('\''));
    assert Plain(u, l.Push('\'')) == Quoted(rest, l.Push('\'').Begin());
  }

  lemma ReadChar(c: char, rest: string, l: Lexer)
    requires c != '\''
    ensures Quoted([c] + rest, l) == Quoted(rest, l.Push(c))
  {
    assert ([c] + rest)[1..] == rest;
  }

  /** The escaped text up to the closing quote is read back as the text. */
  lemma {:induction false} ReadBody(v: string, rest: string, l: Lexer, n: int)
    requires l.token.Some? && n < 0
    ensures Quoted(Replace(v, "'", "'\\''", n) + "'" + rest, l) == Plain(rest, l.(token := Some(l.token.value + v)))
    decreases |v|
  {
    if v == "" {
      assert Replace(v, "'", "'\\''", n) + "'" + rest == "'" + rest;
      assert ("'" + rest)[1..] == rest;
      assert l.token.value + v == l.token.value;
    } else {
      assert l.token.value + [v[0]] + v[1..] == l.token.value + v;
      if "'" <= v {
        assert v[0] == '\'';
        var body := Replace(v[1..], "'", "'\\''", n - 1);
        assert Replace(v, "'", "'\\''", n) == "'\\''" + body;
        assert "'\\''" + body + "'" + rest == "'\\''" + (body + "'" + rest);
        ReadEscape(body + "'" + rest, l);
        ReadBody(v[1..], rest, l.Push('\''), n - 1);
      } else {
        assert v[0] != '\'' by {
          assert v[..1] == [v[0]];
        }
        var body := Replace(v[1..], "'", "'\\''", n);
        assert [v[0]] + body + "'" + rest == [v[0]] + (body + "'" + rest);
        ReadChar(v[0], body + "'" + rest, l);
        ReadBody(v[1..], rest, l.Push(v[0]), n);
      }
    }
  }

  /** One quoted value is one token, empty or not, whatever is in it. */
  lemma ReadQuote(v: string, rest: string, tokens: seq<string>)
    ensures Plain(Quote(v) + rest, Lexer(tokens, None)) == Plain(rest, Lexer(tokens, Some(v)))
  {
    var body := Replace(v, "'", "'\\''", -1);
    assert Quote(v) + rest == "'" + (body + "'" + rest);
    assert ("'" + (body + "'" + rest))[1..] == body + "'" + rest;
    ReadBody(v, rest, Lexer(tokens, Some("")), -1);
    assert "" + v == v;
  }

  lemma {:induction false} ReadLine(vs: seq<string>, tokens: seq<string>)
    ensures Plain(Line(vs), Lexer(tokens, None)) == Some(tokens + vs)
    decreases |vs|
  {
    if vs == [] {
      assert tokens + vs == tokens;
    } else if |vs| == 1 {
      ReadQuote(vs[0], "", tokens);
      assert Quote(vs[0]) + "" == Quote(vs[0]);
      assert [vs[0]] == vs;
    } else {
      var rest := " " + Line(vs[1..]);
      assert Line(vs) == Quote(vs[0]) + rest;
      ReadQuote(vs[0], rest, tokens);
      assert rest[1..] == Line(vs[1..]);
      ReadLine(vs[1..], tokens + [vs[0]]);
      assert tokens + [vs[0]] + vs[1..] == tokens + vs;
    }
  }

  /** Any list of arguments, quoted and put side by side, reaches the command exactly as it was. */
  lemma RoundTrip(vs: seq<string>)
    ensures Lex(Line(vs)) == Some(vs)
  {
    ReadLine(vs, []);
    assert [] + vs == vs;
  }

  /** So no two argument lists share a command line. */
  lemma LineIsInjective(a: seq<string>, b: seq<string>)
    requires Line(a) == Line(b)
    ensures a == b
  {
    RoundTrip(a);
    RoundTrip(b);
  }
}

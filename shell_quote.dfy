/**
 * Python's `shlex.quote`, which the engine applies to every text it types on
 * the device, together with a reader of POSIX shell words to state what the
 * quoting achieves: the device shell reads the quoted text back as exactly
 * one word equal to the original text.
 */
module ShellQuote {
  import opened Wrappers

  /** The characters `shlex.quote` leaves bare: `[A-Za-z0-9_@%+=:,./-]`. */
  predicate IsSafe(c: char) {
    || ('a' <= c <= 'z') || ('A' <= c <= 'Z') || ('0' <= c <= '9')
    || c == '_' || c == '@' || c == '%' || c == '+' || c == '='
    || c == ':' || c == ',' || c == '.' || c == '/' || c == '-'
  }

  predicate AllSafe(s: string) {
    forall i :: 0 <= i < |s| ==> IsSafe(s[i])
  }

  /** Each `'` becomes `'"'"'`: close the single quotes, a double-quoted `'`, reopen. */
  function EscapeSingleQuotes(s: string): (r: string)
    ensures |r| >= |s|
    decreases |s|
  {
    if s == [] then []
    else if s[0] == '\'' then "'\"'\"'" + EscapeSingleQuotes(s[1..])
    else [s[0]] + EscapeSingleQuotes(s[1..])
  }

  /** Python's `shlex.quote(s)`. */
  function Quote(s: string): (r: string)
    ensures r != []
    ensures s == [] ==> r == "''"
    ensures AllSafe(s) && s != [] ==> r == s
    ensures !AllSafe(s) ==> r[0] == '\'' && r[|r| - 1] == '\''
  {
    if s == [] then "''"
    else if AllSafe(s) then s
    else "'" + EscapeSingleQuotes(s) + "'"
  }

  // ---------------------------------------------------------------------
  // How a POSIX shell splits a command line into words.

  /** Where the reader stands: outside quotes, inside '...' or inside "...". */
  datatype Mode = Bare | InSingle | InDouble

  predicate IsBlank(c: char) {
    c == ' ' || c == '\t'
  }

  /**
   * Characters that a POSIX shell does not take literally outside quotes:
   * the newline and operator characters, quoting and expansion characters,
   * pattern characters, and the comment and tilde characters.
   */
  predicate IsShellSpecial(c: char) {
    || c == '\n' || c == '|' || c == '&' || c == ';' || c == '<' || c == '>'
    || c == '(' || c == ')' || c == '$' || c == '`' || c == '\\' || c == '"'
    || c == '\'' || c == '*' || c == '?' || c == '[' || c == ']' || c == '#'
    || c == '~' || c == '{' || c == '}' || c == '!'
  }

  /** Prepends a finished word to the words that follow it. */
  function Cons(w: string, rest: Option<seq<string>>): Option<seq<string>> {
    match rest
    case None => None
    case Some(ws) => Some([w] + ws)
  }

  /**
   * The words of a command line made only of literal words, or None when
   * the line holds anything else (an operator, an expansion, a pattern, an
   * unquoted special character or an unterminated quote). `word` is the word
   * read so far and `inWord` says whether one has started; quotes join text
   * into the current word, blanks end it. Inside double quotes a backslash
   * escapes `$`, a backquote, `"` and `\`, and a backslash-newline vanishes.
   */
  function Words(s: string, mode: Mode, word: string, inWord: bool): Option<seq<string>>
    decreases |s|
  {
    if s == [] then
      if mode != Bare then None
      else if inWord then Some([word]) else Some([])
    else
      var c, rest := s[0], s[1..];
      match mode
      case Bare =>
        if IsBlank(c) then
          if inWord then Cons(word, Words(rest, Bare, "", false)) else Words(rest, Bare, "", false)
        else if c == '\'' then Words(rest, InSingle, word, true)
        else if c == '"' then Words(rest, InDouble, word, true)
        else if IsShellSpecial(c) then None
        else Words(rest, Bare, word + [c], true)
      case InSingle =>
        if c == '\'' then Words(rest, Bare, word, true)
        else Words(rest, InSingle, word + [c], true)
      case InDouble =>
        if c == '"' then Words(rest, Bare, word, true)
        else if c == '$' || c == '`' then None
        else if c == '\\' && rest != [] && rest[0] == '\n' then Words(rest[1..], InDouble, word, true)
        else if c == '\\' && rest != [] && rest[0] in "$`\"\\" then Words(rest[1..], InDouble, word + [rest[0]], true)
        else Words(rest, InDouble, word + [c], true)
  }

  /** The words a POSIX shell reads from `line`, when they are all literal. */
  function SplitWords(line: string): Option<seq<string>> {
    Words(line, Bare, "", false)
  }

  // ---------------------------------------------------------------------
  // The round trip.

  /** A safe character is read literally outside quotes. */
  lemma SafeIsLiteral(c: char)
    requires IsSafe(c)
    ensures !IsBlank(c) && c != '\'' && c != '"' && !IsShellSpecial(c)
  {
  }

  /** Outside quotes, a character read literally extends the current word. */
  lemma {:induction false} BareStep(s: string, w: string, inWord: bool)
    requires s != [] && IsSafe(s[0])
    ensures Words(s, Bare, w, inWord) == Words(s[1..], Bare, w + [s[0]], true)
  {
    SafeIsLiteral(s[0]);
  }

  /** A run of safe characters extends the current unquoted word. */
  lemma {:induction false} BareRun(t: string, rest: string, w: string, inWord: bool)
    requires t != [] && AllSafe(t)
    ensures Words(t + rest, Bare, w, inWord) == Words(rest, Bare, w + t, true)
    decreases |t|
  {
    var s := t + rest;
    assert s[0] == t[0] && s[1..] == t[1..] + rest;
    BareStep(s, w, inWord);
    if |t| > 1 {
      BareRun(t[1..], rest, w + [t[0]], true);
      assert w + [t[0]] + t[1..] == w + t;
    } else {
      assert t[1..] + rest == rest;
      assert w + [t[0]] == w + t;
    }
  }

  /** The escaped body of a single-quoted text, with its closing quote, reads back as the text. */
  lemma {:induction false} QuotedBody(t: string, rest: string, w: string)
    ensures Words(EscapeSingleQuotes(t) + "'" + rest, InSingle, w, true) == Words(rest, Bare, w + t, true)
    decreases |t|
  {
    var s := EscapeSingleQuotes(t) + "'" + rest;
    if t == [] {
      assert s == "'" + rest && s[1..] == rest;
      assert w + t == w;
    } else if t[0] == '\'' {
      var tail := EscapeSingleQuotes(t[1..]) + "'" + rest;
      assert s == "'\"'\"'" + tail;
      EscapedQuoteStep(tail, w);
      QuotedBody(t[1..], rest, w + "'");
      assert w + "'" + t[1..] == w + t;
    } else {
      var tail := EscapeSingleQuotes(t[1..]) + "'" + rest;
      assert s == [t[0]] + tail && s[1..] == tail;
      QuotedBody(t[1..], rest, w + [t[0]]);
      assert w + [t[0]] + t[1..] == w + t;
    }
  }

  /** `'"'"'` inside single quotes reads as one `'`, and the single quotes reopen. */
  lemma {:induction false} EscapedQuoteStep(tail: string, w: string)
    ensures Words("'\"'\"'" + tail, InSingle, w, true) == Words(tail, InSingle, w + "'", true)
  {
    var s0, s1, s2, s3, s4 := "'\"'\"'" + tail, "\"'\"'" + tail, "'\"'" + tail, "\"'" + tail, "'" + tail;
    assert s0[0] == '\'' && s0[1..] == s1;
    assert s1[0] == '"' && s1[1..] == s2;
    assert s2[0] == '\'' && s2[1..] == s3;
    assert s3[0] == '"' && s3[1..] == s4;
    assert s4[0] == '\'' && s4[1..] == tail;
    assert Words(s0, InSingle, w, true) == Words(s1, Bare, w, true);
    assert Words(s1, Bare, w, true) == Words(s2, InDouble, w, true);
    assert Words(s2, InDouble, w, true) == Words(s3, InDouble, w + "'", true);
    assert Words(s3, InDouble, w + "'", true) == Words(s4, Bare, w + "'", true);
  }

  /** A quoted text, followed by more of the line, is read as one word equal to the text. */
  lemma {:induction false} QuoteReadsBack(t: string, rest: string, w: string, inWord: bool)
    ensures Words(Quote(t) + rest, Bare, w, inWord) == Words(rest, Bare, w + t, true)
  {
    if t == [] {
      var s := "''" + rest;
      assert s[1..] == "'" + rest && s[1..][1..] == rest;
      assert w + t == w;
    } else if AllSafe(t) {
      BareRun(t, rest, w, inWord);
    } else {
      var s := "'" + EscapeSingleQuotes(t) + "'" + rest;
      assert Quote(t) + rest == s;
      assert s[1..] == EscapeSingleQuotes(t) + "'" + rest;
      QuotedBody(t, rest, w);
    }
  }

  /** The round trip `shlex.split(shlex.quote(t)) == [t]`, for every text `t`. */
  lemma QuoteRoundTrip(t: string)
    ensures SplitWords(Quote(t)) == Some([t])
  {
    QuoteReadsBack(t, "", "", false);
    assert Quote(t) + "" == Quote(t);
    assert "" + t == t;
  }

  /**
   * A line made of safe words separated by single blanks and ending in a
   * quoted text reads back as those words followed by the text.
   */
  lemma {:induction false} CommandReadsBack(prefix: seq<string>, t: string)
    requires forall k :: 0 <= k < |prefix| ==> prefix[k] != [] && AllSafe(prefix[k])
    ensures SplitWords(JoinBlank(prefix) + Quote(t)) == Some(prefix + [t])
    decreases |prefix|
  {
    if prefix == [] {
      QuoteRoundTrip(t);
      assert JoinBlank(prefix) + Quote(t) == Quote(t);
      assert prefix + [t] == [t];
    } else {
      var p := prefix[0];
      var rest := JoinBlank(prefix[1..]);
      var tail := rest + Quote(t);
      assert JoinBlank(prefix) == p + " " + rest;
      BlankJoin(p, rest, Quote(t));
      assert AllSafe(p);
      BareRun(p, " " + tail, "", false);
      BlankEndsWord(tail, p);
      assert "" + p == p;
      CommandReadsBack(prefix[1..], t);
      assert [p] + (prefix[1..] + [t]) == prefix + [t];
    }
  }

  lemma {:induction false} BlankJoin(p: string, rest: string, q: string)
    ensures p + " " + rest + q == p + (" " + (rest + q))
  {
  }

  /** Outside quotes, a blank ends the word being read. */
  lemma {:induction false} BlankEndsWord(tail: string, w: string)
    ensures Words(" " + tail, Bare, w, true) == Cons(w, SplitWords(tail))
  {
    assert (" " + tail)[0] == ' ' && (" " + tail)[1..] == tail;
  }

  /** Each word followed by one blank. */
  function JoinBlank(ws: seq<string>): string {
    if ws == [] then "" else ws[0] + " " + JoinBlank(ws[1..])
  }
}

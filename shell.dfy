/**
 * The shell text the sudo fallback of src/lib/files.ts writes: `shellQuote` and the heredoc
 * script, each with a reader that gives its meaning back as a POSIX shell reads it.
 */
module Shell {
  import opened Wrappers
  import opened Strings

  /** Each `'` of `v` becomes `'\''`: close the quote, an escaped quote, reopen the quote. */
  function EscapeQuotes(v: string): (r: string)
    ensures |r| == |v| + 3 * Count(v, '\'')
    ensures '\'' !in v ==> r == v
    decreases |v|
  {
    if v == [] then []
    else (if v[0] == '\'' then "'\\''" else [v[0]]) + EscapeQuotes(v[1..])
  }

  /** `shellQuote`: the value inside single quotes, with its own quotes escaped. */
  function ShellQuote(v: string): (r: string)
    ensures |r| == |v| + 2 + 3 * Count(v, '\'')
    ensures r[0] == '\'' && r[|r| - 1] == '\''
  {
    "'" + EscapeQuotes(v) + "'"
  }

  /** Characters that end an unquoted shell word. */
  predicate IsDelimiter(c: char) {
    c == ' ' || c == '\t' || c == '\n' || c == ';' || c == '&' || c == '|' || c == '<' || c == '>'
    || c == '(' || c == ')'
  }

  function Prepend(c: char, r: Option<(string, string)>): Option<(string, string)> {
    match r
    case Some((w, rest)) => Some(([c] + w, rest))
    case None => None
  }

  /**
   * Reads one shell word from the start of `s`, outside quotes: its value, and the text after
   * it. A backslash takes the next character literally (a backslash-newline vanishes), a
   * single quote starts a quoted run; `None` when a quote or an escape is left open.
   */
  function ReadWord(s: string): Option<(string, string)>
    decreases |s|, 1
  {
    if s == [] then Some(([], []))
    else if IsDelimiter(s[0]) then Some(([], s))
    else if s[0] == '\'' then ReadQuoted(s[1..])
    else if s[0] == '\\' then
      if |s| < 2 then None
      else if s[1] == '\n' then ReadWord(s[2..])
      else Prepend(s[1], ReadWord(s[2..]))
    else Prepend(s[0], ReadWord(s[1..]))
  }

  /** Reads inside single quotes, where every character but `'` stands for itself. */
  function ReadQuoted(s: string): Option<(string, string)>
    decreases |s|, 0
  {
    if s == [] then None
    else if s[0] == '\'' then ReadWord(s[1..])
    else Prepend(s[0], ReadQuoted(s[1..]))
  }

  lemma ReadQuotedEscape(tail: string, w: string, rest: string)
    requires ReadQuoted(tail) == Some((w, rest))
    ensures ReadQuoted("'\\''" + tail) == Some((['\''] + w, rest))
  {
    var s := "'\\''" + tail;
    var s1 := s[1..];
    assert s1 == "\\''" + tail;
    assert s1[0] == '\\' && s1[1] == '\'' && s1[2..] == "'" + tail;
    assert ReadQuoted(s) == ReadWord(s1);
    assert ReadWord(s1) == Prepend('\'', ReadWord("'" + tail));
    assert ("'" + tail)[1..] == tail;
    assert ReadWord("'" + tail) == ReadQuoted(tail);
  }

  lemma ReadQuotedPlain(c: char, tail: string, w: string, rest: string)
    requires c != '\'' && ReadQuoted(tail) == Some((w, rest))
    ensures ReadQuoted([c] + tail) == Some(([c] + w, rest))
  {
    assert ([c] + tail)[1..] == tail;
  }

  lemma EscapeFirst(v: string, rest: string)
    requires v != []
    ensures EscapeQuotes(v) + "'" + rest
      == (if v[0] == '\'' then "'\\''" else [v[0]]) + (EscapeQuotes(v[1..]) + "'" + rest)
  {
    var head := if v[0] == '\'' then "'\\''" else [v[0]];
    var e := EscapeQuotes(v[1..]);
    assert EscapeQuotes(v) == head + e;
    assert head + e + "'" + rest == head + (e + "'" + rest);
  }

  lemma {:induction false} ReadEscaped(v: string, rest: string)
    requires rest == [] || IsDelimiter(rest[0])
    ensures ReadQuoted(EscapeQuotes(v) + "'" + rest) == Some((v, rest))
    decreases |v|
  {
    if v == [] {
      assert EscapeQuotes(v) + "'" + rest == ['\''] + rest;
      assert (['\''] + rest)[1..] == rest;
    } else {
      var tail := EscapeQuotes(v[1..]) + "'" + rest;
      ReadEscaped(v[1..], rest);
      EscapeFirst(v, rest);
      assert [v[0]] + v[1..] == v;
      if v[0] == '\'' {
        ReadQuotedEscape(tail, v[1..], rest);
      } else {
        ReadQuotedPlain(v[0], tail, v[1..], rest);
      }
    }
  }

  /** The shell reads a quoted value back as the value itself, whatever characters it holds. */
  lemma ReadShellQuote(v: string, rest: string)
    requires rest == [] || IsDelimiter(rest[0])
    ensures ReadWord(ShellQuote(v) + rest) == Some((v, rest))
  {
    var inner := EscapeQuotes(v) + "'" + rest;
    ReadEscaped(v, rest);
    assert ShellQuote(v) + rest == "'" + inner;
    assert ("'" + inner)[1..] == inner;
  }

  /** The fallback script: a quoted heredoc, so the body is taken without any expansion. */
  function HeredocScript(marker: string, target: string, content: string): string {
    "cat <<" + (("'" + marker + "'") + (" > " + ShellQuote(target) + ("\n" + content + "\n" + marker)))
  }

  /** What a heredoc redirect asks the shell to do: write `body` to `target`. */
  datatype Heredoc = Heredoc(delimiter: string, target: string, body: string)

  /** The lines of a heredoc up to the delimiter line, each with its newline back; `None` if the delimiter never comes. */
  function HereBody(lines: seq<string>, delimiter: string): Option<string>
    decreases |lines|
  {
    if lines == [] then None
    else if lines[0] == delimiter then Some([])
    else
      match HereBody(lines[1..], delimiter)
      case Some(b) => Some(lines[0] + "\n" + b)
      case None => None
  }

  /** The heredoc lines after the command line, read up to `delimiter`. */
  function ReadLines(r2: string, delimiter: string, target: string): Option<Heredoc> {
    if r2 == [] || r2[0] != '\n' then None
    else
      match HereBody(Split(r2[1..], '\n'), delimiter)
      case None => None
      case Some(body) => Some(Heredoc(delimiter, target, body))
  }

  /** The redirect ` > WORD` after the heredoc operator, then the heredoc lines. */
  function ReadRedirect(r1: string, delimiter: string): Option<Heredoc> {
    if |r1| < 3 || r1[..3] != " > " then None
    else
      match ReadWord(r1[3..])
      case None => None
      case Some((target, r2)) => ReadLines(r2, delimiter, target)
  }

  /** How the shell reads a script of the form `cat <<WORD > WORD` followed by the heredoc lines. */
  function ReadHeredoc(script: string): Option<Heredoc> {
    if |script| < 6 || script[..6] != "cat <<" then None
    else
      match ReadWord(script[6..])
      case None => None
      case Some((delimiter, r1)) => ReadRedirect(r1, delimiter)
  }

  lemma {:induction false} HereBodyBeforeMarker(lines: seq<string>, marker: string)
    requires |lines| >= 1
    requires forall i :: 0 <= i < |lines| ==> lines[i] != marker
    ensures HereBody(lines + [marker], marker) == Some(Join(lines, '\n') + "\n")
    decreases |lines|
  {
    var all := lines + [marker];
    assert all[0] == lines[0];
    assert all[1..] == lines[1..] + [marker];
    if |lines| == 1 {
      assert HereBody(all[1..], marker) == Some([]);
      assert lines[0] + "\n" + [] == lines[0] + "\n";
    } else {
      HereBodyBeforeMarker(lines[1..], marker);
      var j := Join(lines[1..], '\n');
      assert HereBody(all[1..], marker) == Some(j + "\n");
      assert Join(lines, '\n') == lines[0] + "\n" + j;
      assert lines[0] + "\n" + (j + "\n") == lines[0] + "\n" + j + "\n";
    }
  }

  lemma ConcatSplit(a: string, b: string)
    ensures (a + b)[..|a|] == a && (a + b)[|a|..] == b
  {
  }

  lemma ScriptHead(marker: string, target: string, content: string)
    requires '\'' !in marker
    ensures var script := HeredocScript(marker, target, content);
      |script| >= 6 && script[..6] == "cat <<"
      && script[6..] == ShellQuote(marker) + (" > " + ShellQuote(target) + ("\n" + content + "\n" + marker))
  {
    var q := ShellQuote(marker);
    var rest := " > " + ShellQuote(target) + ("\n" + content + "\n" + marker);
    assert q == "'" + marker + "'";
    ConcatSplit("cat <<", q + rest);
  }

  lemma LinesAfterTarget(content: string, marker: string)
    requires '\n' !in marker
    ensures Split(("\n" + content + "\n" + marker)[1..], '\n') == Split(content, '\n') + [marker]
  {
    assert ("\n" + content + "\n" + marker)[1..] == content + ['\n'] + marker;
    SplitAt(content, marker, '\n');
    SplitNone(marker, '\n');
  }

  lemma ReadBody(marker: string, target: string, content: string)
    requires '\n' !in marker
    requires forall i :: 0 <= i < |Split(content, '\n')| ==> Split(content, '\n')[i] != marker
    ensures ReadLines("\n" + content + "\n" + marker, marker, target) == Some(Heredoc(marker, target, content + "\n"))
  {
    LinesAfterTarget(content, marker);
    HereBodyBeforeMarker(Split(content, '\n'), marker);
    JoinSplit(content, '\n');
  }

  lemma ReadRedirectQuoted(target: string, lines: string, delimiter: string)
    requires lines != [] && lines[0] == '\n'
    ensures ReadRedirect(" > " + ShellQuote(target) + lines, delimiter) == ReadLines(lines, delimiter, target)
  {
    var r1 := " > " + ShellQuote(target) + lines;
    assert r1[..3] == " > " && r1[3..] == ShellQuote(target) + lines;
    ReadShellQuote(target, lines);
  }

  /**
   * The fallback script means: write `content` followed by one newline to `target`, provided
   * the marker is a plain word and no line of the content is the marker itself.
   */
  lemma ReadHeredocScript(marker: string, target: string, content: string)
    requires marker != "" && '\'' !in marker && '\n' !in marker
    requires forall i :: 0 <= i < |Split(content, '\n')| ==> Split(content, '\n')[i] != marker
    ensures ReadHeredoc(HeredocScript(marker, target, content)) == Some(Heredoc(marker, target, content + "\n"))
  {
    var lines := "\n" + content + "\n" + marker;
    var afterMarker := " > " + ShellQuote(target) + lines;
    ScriptHead(marker, target, content);
    ReadShellQuote(marker, afterMarker);
    ReadRedirectQuoted(target, lines, marker);
    ReadBody(marker, target, content);
  }
}

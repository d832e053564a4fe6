/** Quoting for `sh -c` (packages/mom/src/sandbox.ts), read back by the token rules of sections 2.2.1,
    2.2.2 and 2.3 of the POSIX.1-2017 Shell Command Language. */
module ShellQuote {
  import opened Wrappers

  function EscapeQuotes(s: string): string {
    if s == "" then ""
    else (if s[0] == '\'' then "'\\''" else [s[0]]) + EscapeQuotes(s[1..])
  }

  function ShellEscape(s: string): string {
    "'" + EscapeQuotes(s) + "'"
  }

  datatype Token = Word(text: string) | Operator(name: string)

  predicate IsBlank(c: char) {
    c == ' ' || c == '\t'
  }

  /** The characters that mean something to the shell when they are not quoted, other than blanks and
      the two quoting characters. */
  predicate IsSpecial(c: char) {
    c in {'|', '&', ';', '<', '>', '(', ')', '$', '`', '"', '*', '?', '[', '#', '~', '=', '%', '\n'}
  }

  /** Characters that stand for themselves. */
  predicate Plain(s: string) {
    forall c <- s :: !IsBlank(c) && !IsSpecial(c) && c != '\'' && c != '\\'
  }

  function Close(tokens: seq<Token>, word: Option<string>): seq<Token> {
    if word.None? then tokens else tokens + [Word(word.value)]
  }

  function SoFar(word: Option<string>): string {
    if word.None? then "" else word.value
  }

  /** Reads tokens: `word` is the one under way, `quoted` says whether a single quote is open. Of the
      operators it knows `&&`, and `>` behind a blank. There is no result when a quote is left open or an
      unquoted character calls for anything else than splitting into words. */
  function Scan(s: string, tokens: seq<Token>, word: Option<string>, quoted: bool): Option<seq<Token>>
    decreases |s|
  {
    if s == "" then
      if quoted then None else Some(Close(tokens, word))
    else if quoted then
      if s[0] == '\'' then Scan(s[1..], tokens, Some(SoFar(word)), false)
      else Scan(s[1..], tokens, Some(SoFar(word) + [s[0]]), true)
    else if s[0] == '\'' then Scan(s[1..], tokens, Some(SoFar(word)), true)
    else if s[0] == '\\' then
      if |s| == 1 then None
      else if s[1] == '\n' then Scan(s[2..], tokens, word, false)
      else Scan(s[2..], tokens, Some(SoFar(word) + [s[1]]), false)
    else if IsBlank(s[0]) then Scan(s[1..], Close(tokens, word), None, false)
    else if |s| >= 2 && s[0] == '&' && s[1] == '&' then
      Scan(s[2..], Close(tokens, word) + [Operator("&&")], None, false)
    else if |s| >= 2 && s[0] == '>' && word.None? && s[1] !in {'>', '&', '|'} then
      Scan(s[1..], tokens + [Operator(">")], None, false)
    else if IsSpecial(s[0]) then None
    else Scan(s[1..], tokens, Some(SoFar(word) + [s[0]]), false)
  }

  function Tokenise(line: string): Option<seq<Token>> {
    Scan(line, [], None, false)
  }

  /** Inside an open quote the escaped text puts exactly the text into the word, and leaves the quote
      open. */
  lemma {:induction false} ScanEscaped(s: string, rest: string, tokens: seq<Token>, word: string)
    ensures Scan(EscapeQuotes(s) + rest, tokens, Some(word), true) == Scan(rest, tokens, Some(word + s), true)
  {
    if s == "" {
      assert EscapeQuotes(s) + rest == rest && word + s == word;
    } else {
      var t := EscapeQuotes(s[1..]) + rest;
      ScanEscaped(s[1..], rest, tokens, word + [s[0]]);
      assert (word + [s[0]]) + s[1..] == word + s;
      if s[0] == '\'' {
        assert EscapeQuotes(s) + rest == "'\\''" + t;
        QuoteInQuotes(t, tokens, word);
      } else {
        assert EscapeQuotes(s) + rest == [s[0]] + t;
      }
    }
  }

  /** Close the quote, a quoted quote, open the quote. */
  lemma QuoteInQuotes(t: string, tokens: seq<Token>, word: string)
    ensures Scan("'\\''" + t, tokens, Some(word), true) == Scan(t, tokens, Some(word + ['\'']), true)
  {
    assert ("'\\''" + t)[1..] == "\\''" + t;
    assert ("\\''" + t)[2..] == "'" + t;
    assert ("'" + t)[1..] == t;
    assert Scan("'" + t, tokens, Some(word + ['\'']), false) == Scan(t, tokens, Some(word + ['\'']), true);
    assert Scan("\\''" + t, tokens, Some(word), false) == Scan("'" + t, tokens, Some(word + ['\'']), false);
  }

  /** Wherever quoting is closed, a quoted string adds exactly itself to the word under way, or starts
      one, whatever surrounds it. */
  lemma ScanQuoted(s: string, rest: string, tokens: seq<Token>, word: Option<string>)
    ensures Scan(ShellEscape(s) + rest, tokens, word, false) == Scan(rest, tokens, Some(SoFar(word) + s), false)
  {
    assert ShellEscape(s) + rest == "'" + (EscapeQuotes(s) + ("'" + rest));
    assert ("'" + (EscapeQuotes(s) + ("'" + rest)))[1..] == EscapeQuotes(s) + ("'" + rest);
    ScanEscaped(s, "'" + rest, tokens, SoFar(word));
    assert ("'" + rest)[1..] == rest;
  }

  lemma ScanOne(c: char, rest: string, tokens: seq<Token>, word: Option<string>)
    requires !IsBlank(c) && !IsSpecial(c) && c != '\'' && c != '\\'
    ensures Scan([c] + rest, tokens, word, false) == Scan(rest, tokens, Some(SoFar(word) + [c]), false)
  {
    assert ([c] + rest)[1..] == rest;
  }

  /** Plain characters go into the word as they are. */
  lemma {:induction false} ScanPlain(p: string, rest: string, tokens: seq<Token>, word: Option<string>)
    requires Plain(p) && p != ""
    ensures Scan(p + rest, tokens, word, false) == Scan(rest, tokens, Some(SoFar(word) + p), false)
  {
    hide Scan, IsBlank, IsSpecial;
    assert p[0] in p && p + rest == [p[0]] + (p[1..] + rest);
    ScanOne(p[0], p[1..] + rest, tokens, word);
    if |p| == 1 {
      assert p[1..] + rest == rest && [p[0]] == p;
    } else {
      assert forall c <- p[1..] :: c in p;
      ScanPlain(p[1..], rest, tokens, Some(SoFar(word) + [p[0]]));
      assert SoFar(word) + [p[0]] + p[1..] == SoFar(word) + p;
    }
  }

  // ---- Command lines, piece by piece ----

  /** A piece of a command line, each followed by a blank: a plain word, a quoted string, an operator. */
  datatype Piece = Bare(word: string) | Quoted(text: string) | And | Into

  predicate PieceOk(p: Piece) {
    p.Bare? ==> Plain(p.word) && p.word != ""
  }

  function Written(p: Piece): string {
    match p
    case Bare(word) => word
    case Quoted(text) => ShellEscape(text)
    case And => "&&"
    case Into => ">"
  }

  function Meant(p: Piece): Token {
    match p
    case Bare(word) => Word(word)
    case Quoted(text) => Word(text)
    case And => Operator("&&")
    case Into => Operator(">")
  }

  function Line(ps: seq<Piece>): string {
    if ps == [] then "" else Written(ps[0]) + (if |ps| == 1 then "" else " " + Line(ps[1..]))
  }

  function Tokens(ps: seq<Piece>): (r: seq<Token>)
    ensures |r| == |ps|
  {
    seq(|ps|, i requires 0 <= i < |ps| => Meant(ps[i]))
  }

  lemma ScanPiece(p: Piece, rest: string, tokens: seq<Token>)
    requires PieceOk(p)
    ensures Scan(Written(p) + (" " + rest), tokens, None, false) == Scan(rest, tokens + [Meant(p)], None, false)
  {
    var tail := " " + rest;
    assert tail[1..] == rest;
    match p
    case Bare(word) =>
      ScanPlain(word, tail, tokens, None);
      assert "" + word == word;
    case Quoted(text) =>
      ScanQuoted(text, tail, tokens, None);
      assert "" + text == text;
    case And =>
      assert ("&&" + tail)[2..] == tail;
    case Into =>
      assert (">" + tail)[1..] == tail;
  }

  /** A line of plain words, quoted strings and operators is read as exactly that, with exactly the
      quoted strings as words: none splits, merges, disappears or reaches the shell as syntax. The line
      ends with a word. */
  lemma {:induction false} LineMeaning(ps: seq<Piece>, tokens: seq<Token>)
    requires ps != [] && (forall p <- ps :: PieceOk(p)) && (ps[|ps| - 1].Bare? || ps[|ps| - 1].Quoted?)
    ensures Scan(Line(ps), tokens, None, false) == Some(tokens + Tokens(ps))
  {
    hide Scan, Written, Plain, PieceOk;
    if |ps| == 1 {
      LastPiece(ps[0], tokens);
      assert Written(ps[0]) + "" == Written(ps[0]);
      assert tokens + [Meant(ps[0])] == tokens + Tokens(ps);
    } else {
      ScanPiece(ps[0], Line(ps[1..]), tokens);
      LineMeaning(ps[1..], tokens + [Meant(ps[0])]);
      assert tokens + [Meant(ps[0])] + Tokens(ps[1..]) == tokens + Tokens(ps);
    }
  }

  lemma LastPiece(p: Piece, tokens: seq<Token>)
    requires PieceOk(p) && (p.Bare? || p.Quoted?)
    ensures Scan(Written(p), tokens, None, false) == Some(tokens + [Meant(p)])
  {
    assert Written(p) + "" == Written(p);
    match p
    case Bare(word) =>
      ScanPlain(word, "", tokens, None);
      assert "" + word == word;
    case Quoted(text) =>
      ScanQuoted(text, "", tokens, None);
      assert "" + text == text;
  }

  /** One quoted string is one word, equal to the string, whatever characters it holds. */
  lemma QuotingRoundTrip(s: string)
    ensures Tokenise(ShellEscape(s)) == Some([Word(s)])
  {
    LastPiece(Quoted(s), []);
    assert [] + [Word(s)] == [Word(s)];
  }

  lemma LineCons(p: Piece, ps: seq<Piece>)
    requires ps != []
    ensures Line([p] + ps) == Written(p) + (" " + Line(ps))
  {
    assert ([p] + ps)[1..] == ps;
  }

  lemma LineOne(p: Piece)
    ensures Line([p]) == Written(p)
  {
    assert Written(p) + "" == Written(p);
  }

  /** `docker exec`, as the Docker executor builds it. */
  function DockerCommand(container: string, command: string): string {
    "docker exec " + (container + (" sh -c " + ShellEscape(command)))
  }

  lemma PlainWords()
    ensures Plain("docker") && Plain("exec") && Plain("sh") && Plain("-c")
    ensures Plain("mkdir") && Plain("-p") && Plain("printf")
  {
  }

  lemma DockerWords(q: string)
    ensures "sh" + (" " + ("-c" + (" " + q))) == "sh -c " + q
    ensures "docker" + (" " + ("exec" + (" " + q))) == "docker exec " + q
    ensures " " + ("sh -c " + q) == " sh -c " + q
  {
  }

  function DockerTokens(container: string, command: string): seq<Token> {
    [Word("docker"), Word("exec"), Word(container), Word("sh"), Word("-c"), Word(command)]
  }

  /** The container is the argument of `docker exec`, and any command is one argument of `sh -c` in it,
      exactly if the name is plain. */
  lemma DockerArguments(container: string)
    ensures (forall command :: Tokenise(DockerCommand(container, command)) == Some(DockerTokens(container, command)))
       <==> Plain(container) && container != ""
  {
    hide Scan, Plain, DockerCommand;
    if Plain(container) && container != "" {
      forall command
        ensures Tokenise(DockerCommand(container, command)) == Some(DockerTokens(container, command))
      {
        DockerPlain(container, command);
      }
    } else if Tokenise(DockerCommand(container, "")) == Some(DockerTokens(container, "")) {
      DockerNotPlain(container);
    }
  }

  lemma DockerPlain(container: string, command: string)
    requires Plain(container) && container != ""
    ensures Tokenise(DockerCommand(container, command)) == Some(DockerTokens(container, command))
  {
    var ps := [Bare("docker"), Bare("exec"), Bare(container), Bare("sh"), Bare("-c"), Quoted(command)];
    hide Scan, Line, Plain;
    PlainWords();
    assert forall p <- ps :: PieceOk(p);
    LineMeaning(ps, []);
    assert [] + Tokens(ps) == DockerTokens(container, command);
    DockerLine(container, command);
  }

  /** What follows the container's name when the command is empty. */
  const AFTER_NAME := " sh -c ''"

  /** Scanning only adds tokens, one at least if a word is under way. */
  lemma {:induction false} ScanExtends(s: string, tokens: seq<Token>, word: Option<string>, quoted: bool)
    requires Scan(s, tokens, word, quoted).Some?
    ensures tokens <= Scan(s, tokens, word, quoted).value
    ensures word.Some? ==> |tokens| < |Scan(s, tokens, word, quoted).value|
    decreases |s|
  {
    if s == "" {
    } else if quoted {
      ScanExtends(s[1..], tokens, Some(if s[0] == '\'' then SoFar(word) else SoFar(word) + [s[0]]), s[0] != '\'');
    } else if s[0] == '\'' {
      ScanExtends(s[1..], tokens, Some(SoFar(word)), true);
    } else if s[0] == '\\' {
      ScanExtends(s[2..], tokens, if s[1] == '\n' then word else Some(SoFar(word) + [s[1]]), false);
    } else if IsBlank(s[0]) {
      ScanExtends(s[1..], Close(tokens, word), None, false);
    } else if |s| >= 2 && s[0] == '&' && s[1] == '&' {
      ScanExtends(s[2..], Close(tokens, word) + [Operator("&&")], None, false);
    } else if s[0] == '>' {
      ScanExtends(s[1..], tokens + [Operator(">")], None, false);
    } else {
      ScanExtends(s[1..], tokens, Some(SoFar(word) + [s[0]]), false);
    }
  }

  /** What can become of the word under way when `s` and then the rest of the docker command are read:
      nothing longer than what was read, and that only if it was plain, unless the rest is drawn in. */
  predicate Becomes(s: string, word: Option<string>, quoted: bool, text: string) {
    || |text| < |SoFar(word)| + |s|
    || (!quoted && Plain(s) && (word.Some? || s != "") && |text| == |SoFar(word)| + |s|)
    || (s != "" && s[|s| - 1] == '\\' && text != "" && text[|text| - 1] == 'h')
    || (word.None? && text == "sh")
  }

  /** A word that a blank ends is the next token. */
  lemma WordEnds(rest: string, tokens: seq<Token>, w: string)
    requires Scan(" " + rest, tokens, Some(w), false).Some?
    ensures var ts := Scan(" " + rest, tokens, Some(w), false).value; |tokens| < |ts| && ts[|tokens|] == Word(w)
  {
    assert (" " + rest)[1..] == rest;
    ScanExtends(rest, tokens + [Word(w)], None, false);
  }

  lemma AfterName(tokens: seq<Token>, word: Option<string>, quoted: bool)
    requires Scan(AFTER_NAME, tokens, word, quoted).Some?
    ensures var ts := Scan(AFTER_NAME, tokens, word, quoted).value;
            |tokens| < |ts| && (ts[|tokens|].Word? ==> Becomes("", word, quoted, ts[|tokens|].text))
  {
    hide Scan;
    var rest := "sh -c ''";
    assert AFTER_NAME == " " + rest;
    if quoted {
      QuoteStaysOpen(tokens, word);
    } else if word.Some? {
      WordEnds(rest, tokens, word.value);
    } else {
      BlankSkipped(rest, tokens);
      assert rest == "sh" + " -c ''";
      PlainWords();
      ScanPlain("sh", " -c ''", tokens, None);
      assert " -c ''" == " " + "-c ''" && "" + "sh" == "sh";
      WordEnds("-c ''", tokens, "sh");
    }
  }

  lemma BlankSkipped(rest: string, tokens: seq<Token>)
    ensures Scan(" " + rest, tokens, None, false) == Scan(rest, tokens, None, false)
  {
    assert (" " + rest)[1..] == rest;
  }

  lemma QuoteStaysOpen(tokens: seq<Token>, word: Option<string>)
    ensures Scan(AFTER_NAME, tokens, word, true).None?
  {
    var w := SoFar(word);
    assert EscapeQuotes(" sh -c ") == " sh -c ";
    assert AFTER_NAME == EscapeQuotes(" sh -c ") + "''";
    assert Scan(AFTER_NAME, tokens, word, true) == Scan(AFTER_NAME, tokens, Some(w), true);
    ScanEscaped(" sh -c ", "''", tokens, w);
    assert "''"[1..] == "'" && "'"[1..] == "";
  }

  /** A backslash at the end of the name draws the next word in. */
  lemma DrawsIn(tokens: seq<Token>, word: Option<string>)
    requires Scan("\\" + AFTER_NAME, tokens, word, false).Some?
    ensures var ts := Scan("\\" + AFTER_NAME, tokens, word, false).value;
            |tokens| < |ts| && (ts[|tokens|].Word? ==> Becomes("\\", word, false, ts[|tokens|].text))
  {
    assert ("\\" + AFTER_NAME)[2..] == "sh" + " -c ''";
    PlainWords();
    ScanPlain("sh", " -c ''", tokens, Some(SoFar(word) + [' ']));
    assert " -c ''" == " " + "-c ''";
    WordEnds("-c ''", tokens, SoFar(word) + [' '] + "sh");
  }

  /** Behind k characters that were quoted, escaped or blank. */
  lemma BecomesBehind(s: string, k: nat, word: Option<string>, quoted: bool, w: Option<string>, q: bool, text: string)
    requires 0 < k <= |s| && Becomes(s[k..], w, q, text) && (w.None? ==> word.None?)
    requires |SoFar(w)| < |SoFar(word)| + k || (q && |SoFar(w)| == |SoFar(word)| + k)
    ensures Becomes(s, word, quoted, text)
  {
    hide Plain;
  }

  lemma BecomesPlain(s: string, word: Option<string>, text: string)
    requires s != "" && !IsBlank(s[0]) && !IsSpecial(s[0]) && s[0] != '\'' && s[0] != '\\'
    requires Becomes(s[1..], Some(SoFar(word) + [s[0]]), false, text)
    ensures Becomes(s, word, false, text)
  {
    hide IsBlank, IsSpecial;
    assert s == [s[0]] + s[1..];
  }

  lemma {:induction false} ScanInto(s: string, tokens: seq<Token>, word: Option<string>, quoted: bool)
    requires Scan(s + AFTER_NAME, tokens, word, quoted).Some?
    ensures var ts := Scan(s + AFTER_NAME, tokens, word, quoted).value;
            |tokens| < |ts| && (ts[|tokens|].Word? ==> Becomes(s, word, quoted, ts[|tokens|].text))
    decreases |s|
  {
    hide Becomes, Plain, IsBlank, IsSpecial;
    if s == "" {
      assert s + AFTER_NAME == AFTER_NAME;
      AfterName(tokens, word, quoted);
      return;
    }
    var line := s + AFTER_NAME;
    var ts := Scan(line, tokens, word, quoted).value;
    assert line[1..] == s[1..] + AFTER_NAME;
    if quoted || s[0] == '\'' {
      var w := Some(if s[0] == '\'' then SoFar(word) else SoFar(word) + [s[0]]);
      var q := if quoted then s[0] != '\'' else true;
      ScanInto(s[1..], tokens, w, q);
      if ts[|tokens|].Word? {
        BecomesBehind(s, 1, word, quoted, w, q, ts[|tokens|].text);
      }
    } else if s == "\\" {
      DrawsIn(tokens, word);
    } else if s[0] == '\\' {
      var w := if s[1] == '\n' then word else Some(SoFar(word) + [s[1]]);
      assert line[2..] == s[2..] + AFTER_NAME;
      ScanInto(s[2..], tokens, w, false);
      if ts[|tokens|].Word? {
        BecomesBehind(s, 2, word, false, w, false, ts[|tokens|].text);
      }
    } else if IsBlank(s[0]) && word.None? {
      ScanInto(s[1..], tokens, None, false);
      if ts[|tokens|].Word? {
        BecomesBehind(s, 1, None, false, None, false, ts[|tokens|].text);
      }
    } else if IsBlank(s[0]) || (line[0] == '&' && line[1] == '&') || line[0] == '>' {
      EndsHere(s, line, tokens, word);
    } else {
      ScanInto(s[1..], tokens, Some(SoFar(word) + [s[0]]), false);
      if ts[|tokens|].Word? {
        BecomesPlain(s, word, ts[|tokens|].text);
      }
    }
  }

  /** A blank or an operator ends the word. */
  lemma EndsHere(s: string, line: string, tokens: seq<Token>, word: Option<string>)
    requires s != "" && s <= line && Scan(line, tokens, word, false).Some?
    requires (IsBlank(s[0]) && word.Some?) || (|line| > 1 && line[0] == '&' && line[1] == '&') || line[0] == '>'
    ensures var ts := Scan(line, tokens, word, false).value;
            |tokens| < |ts| && (ts[|tokens|].Word? ==> Becomes(s, word, false, ts[|tokens|].text))
  {
    if IsBlank(s[0]) {
      ScanExtends(line[1..], Close(tokens, word), None, false);
    } else if line[0] == '&' {
      ScanExtends(line[2..], Close(tokens, word) + [Operator("&&")], None, false);
    } else {
      ScanExtends(line[1..], tokens + [Operator(">")], None, false);
    }
  }

  lemma DockerNotPlain(container: string)
    requires Tokenise(DockerCommand(container, "")) == Some(DockerTokens(container, ""))
    ensures Plain(container) && container != ""
  {
    var line := container + AFTER_NAME;
    assert ShellEscape("") == "''";
    assert DockerCommand(container, "") == "docker" + (" " + ("exec" + (" " + line)));
    hide Scan;
    PlainWords();
    ScanPiece(Bare("docker"), "exec" + (" " + line), []);
    ScanPiece(Bare("exec"), line, [] + [Word("docker")]);
    var tokens := [] + [Word("docker")] + [Word("exec")];
    assert Scan(line, tokens, None, false) == Some(DockerTokens(container, ""));
    ScanInto(container, tokens, None, false);
  }

  lemma DockerLine(container: string, command: string)
    ensures Line([Bare("docker"), Bare("exec"), Bare(container), Bare("sh"), Bare("-c"), Quoted(command)])
         == DockerCommand(container, command)
  {
    hide Line, ShellEscape;
    var q := ShellEscape(command);
    var sh := [Bare("sh"), Bare("-c"), Quoted(command)];
    LineOne(Quoted(command));
    LineCons(Bare("-c"), [Quoted(command)]);
    LineCons(Bare("sh"), [Bare("-c"), Quoted(command)]);
    assert [Bare("-c")] + [Quoted(command)] == [Bare("-c"), Quoted(command)]
      && [Bare("sh")] + [Bare("-c"), Quoted(command)] == sh;
    DockerWords(q);
    LineCons(Bare(container), sh);
    LineCons(Bare("exec"), [Bare(container)] + sh);
    LineCons(Bare("docker"), [Bare("exec")] + ([Bare(container)] + sh));
    assert [Bare("docker")] + ([Bare("exec")] + ([Bare(container)] + sh))
        == [Bare("docker"), Bare("exec"), Bare(container), Bare("sh"), Bare("-c"), Quoted(command)];
    DockerWords(container + (" sh -c " + q));
  }

  /** The write tool's command line. */
  function WriteCommand(dir: string, content: string, path: string): string {
    "mkdir -p " + (ShellEscape(dir) + (" && printf '%s' " + (ShellEscape(content) + (" > " + ShellEscape(path)))))
  }

  lemma WriteWords(q: string)
    ensures "mkdir" + (" " + ("-p" + (" " + q))) == "mkdir -p " + q
    ensures " " + ("&&" + (" " + ("printf" + (" " + ("'%s'" + (" " + q)))))) == " && printf '%s' " + q
    ensures " " + (">" + (" " + q)) == " > " + q
  {
  }

  /** Directory, content and path are arguments of `mkdir`, of `printf` and of the redirection,
      whatever they hold. */
  lemma WriteArguments(dir: string, content: string, path: string)
    ensures Tokenise(WriteCommand(dir, content, path))
         == Some([Word("mkdir"), Word("-p"), Word(dir), Operator("&&"), Word("printf"), Word("%s"), Word(content),
                  Operator(">"), Word(path)])
  {
    var ps := [Bare("mkdir"), Bare("-p"), Quoted(dir), And, Bare("printf"), Quoted("%s"), Quoted(content), Into,
               Quoted(path)];
    hide Scan, Line, Plain;
    PlainWords();
    assert forall p <- ps :: PieceOk(p);
    LineMeaning(ps, []);
    assert [] + Tokens(ps)
        == [Word("mkdir"), Word("-p"), Word(dir), Operator("&&"), Word("printf"), Word("%s"), Word(content),
            Operator(">"), Word(path)];
    WriteLine(dir, content, path);
  }

  function Printing(content: string, path: string): seq<Piece> {
    [And] + ([Bare("printf")] + ([Quoted("%s")] + ([Quoted(content)] + ([Into] + [Quoted(path)]))))
  }

  lemma PrintingLine(content: string, path: string)
    ensures " " + Line(Printing(content, path))
            == " && printf '%s' " + (ShellEscape(content) + (" > " + ShellEscape(path)))
  {
    assert ShellEscape("%s") == "'%s'";
    hide Line, ShellEscape;
    var into := [Into] + [Quoted(path)];
    LineOne(Quoted(path));
    LineCons(Into, [Quoted(path)]);
    LineCons(Quoted(content), into);
    LineCons(Quoted("%s"), [Quoted(content)] + into);
    LineCons(Bare("printf"), [Quoted("%s")] + ([Quoted(content)] + into));
    LineCons(And, [Bare("printf")] + ([Quoted("%s")] + ([Quoted(content)] + into)));
    WriteWords(ShellEscape(path));
    WriteWords(ShellEscape(content) + (" > " + ShellEscape(path)));
  }

  lemma WriteLine(dir: string, content: string, path: string)
    ensures Line([Bare("mkdir"), Bare("-p"), Quoted(dir), And, Bare("printf"), Quoted("%s"), Quoted(content), Into,
                  Quoted(path)])
         == WriteCommand(dir, content, path)
  {
    var printing := Printing(content, path);
    assert [Bare("mkdir")] + ([Bare("-p")] + ([Quoted(dir)] + printing))
        == [Bare("mkdir"), Bare("-p"), Quoted(dir), And, Bare("printf"), Quoted("%s"), Quoted(content), Into,
            Quoted(path)];
    hide Line, ShellEscape, Printing;
    PrintingLine(content, path);
    LineCons(Quoted(dir), printing);
    LineCons(Bare("-p"), [Quoted(dir)] + printing);
    LineCons(Bare("mkdir"), [Bare("-p")] + ([Quoted(dir)] + printing));
    WriteWords(ShellEscape(dir) + (" && printf '%s' " + (ShellEscape(content) + (" > " + ShellEscape(path)))));
  }
}

/** Printing words for a POSIX shell and what the shell reads back
    (crates/fwm/src/ssh_actions.rs, `render_command`; crates/fwm-core/src/cleanup/lease.rs, `shell_quote`). */
module Shell {
  import opened Basics

  /** How an apostrophe leaves and re-enters single quotes. */
  datatype Escape = Backslashed | DoubleQuoted

  function Apostrophe(escape: Escape): string {
    match escape
    case Backslashed => "'\\''"
    case DoubleQuoted => "'\"'\"'"
  }

  /** `str::replace` of every apostrophe. */
  function Replace(word: string, escape: Escape): string {
    if word == [] then []
    else (if word[0] == '\'' then Apostrophe(escape) else [word[0]]) + Replace(word[1..], escape)
  }

  function Quote(word: string, escape: Escape): string {
    "'" + Replace(word, escape) + "'"
  }

  function Join(words: seq<string>): string {
    if words == [] then [] else if |words| == 1 then words[0] else words[0] + " " + Join(words[1..])
  }

  function QuoteAll(words: seq<string>): seq<string> {
    if words == [] then [] else [Quote(words[0], Backslashed)] + QuoteAll(words[1..])
  }

  function RenderCommand(words: seq<string>): string {
    Join(QuoteAll(words))
  }

  // ---------- the shell's side: sections 2.2.1 to 2.2.3 of the POSIX Shell Command Language ----------

  datatype Mode = Plain | Escaped | Single | Double | DoubleEscaped

  /** Words read so far and the word being read, if one has begun. */
  datatype Reader = Reader(mode: Mode, words: seq<string>, word: Option<string>)

  /** Characters that would start an operator, an expansion or a comment when unquoted, or end the command. */
  predicate Special(c: char) {
    c in {'|', '&', ';', '<', '>', '(', ')', '$', '`', '\n', '*', '?', '[', '#', '~', '=', '%'}
  }

  function Extend(r: Reader, c: string): Reader {
    r.(word := Some((if r.word.Some? then r.word.value else []) + c))
  }

  function Begin(r: Reader): Reader {
    if r.word.None? then r.(word := Some([])) else r
  }

  function EndWord(r: Reader): Reader {
    if r.word.Some? then r.(words := r.words + [r.word.value], word := None) else r
  }

  /** One character; None if the text is more than a list of plain words. */
  function Read(r: Reader, c: char): Option<Reader> {
    match r.mode
    case Plain =>
      if c == ' ' || c == '\t' then Some(EndWord(r))
      else if c == '\'' then Some(Begin(r).(mode := Single))
      else if c == '"' then Some(Begin(r).(mode := Double))
      else if c == '\\' then Some(r.(mode := Escaped))
      else if Special(c) then None
      else Some(Extend(r, [c]))
    case Escaped => if c == '\n' then Some(r.(mode := Plain)) else Some(Extend(r, [c]).(mode := Plain))
    case Single => if c == '\'' then Some(r.(mode := Plain)) else Some(Extend(r, [c]))
    case Double =>
      if c == '"' then Some(r.(mode := Plain))
      else if c == '\\' then Some(r.(mode := DoubleEscaped))
      else if c == '$' || c == '`' then None
      else Some(Extend(r, [c]))
    case DoubleEscaped =>
      if c == '\n' then Some(r.(mode := Double))
      else if c in {'$', '`', '"', '\\'} then Some(Extend(r, [c]).(mode := Double))
      else Some(Extend(r, ['\\', c]).(mode := Double))
  }

  function ReadAll(r: Reader, text: string): Option<Reader>
    decreases |text|
  {
    if text == [] then Some(r)
    else
      match Read(r, text[0])
      case None => None
      case Some(next) => ReadAll(next, text[1..])
  }

  /** The words the shell makes of a command line. */
  function Tokenise(text: string): Option<seq<string>> {
    match ReadAll(Reader(Plain, [], None), text)
    case Some(r) => if r.mode.Plain? then Some(EndWord(r).words) else None
    case None => None
  }

  // ---------- reading back what was printed ----------

  lemma {:induction false} ReadAppended(r: Reader, a: string, b: string)
    ensures ReadAll(r, a + b) == match ReadAll(r, a) case Some(next) => ReadAll(next, b) case None => None
    decreases |a|
  {
    if a == [] {
      assert a + b == b;
    } else {
      assert (a + b)[0] == a[0] && (a + b)[1..] == a[1..] + b;
      if Read(r, a[0]).Some? {
        ReadAppended(Read(r, a[0]).value, a[1..], b);
      }
    }
  }

  lemma ReadOne(r: Reader, c: char)
    ensures ReadAll(r, [c]) == Read(r, c)
  {
    assert [c][1..] == [];
  }

  lemma ReadTwo(r: Reader, c: char, d: char, between: Reader, after: Reader)
    requires Read(r, c) == Some(between) && Read(between, d) == Some(after)
    ensures ReadAll(r, [c, d]) == Some(after)
  {
    assert [c, d][1..] == [d];
    ReadOne(between, d);
  }

  /** Out of the quotes, one apostrophe, and back in. */
  lemma ApostropheReadsBack(r: Reader, escape: Escape)
    requires r.mode.Single? && r.word.Some?
    ensures ReadAll(r, Apostrophe(escape)) == Some(Extend(r, "'"))
  {
    var plain, there := r.(mode := Plain), Extend(r, "'");
    match escape {
      case Backslashed =>
        ReadTwo(r, '\'', '\\', plain, plain.(mode := Escaped));
        ReadTwo(plain.(mode := Escaped), '\'', '\'', there.(mode := Plain), there);
        assert Apostrophe(escape) == "'\\" + "''";
        ReadAppended(r, "'\\", "''");
      case DoubleQuoted =>
        ReadTwo(r, '\'', '"', plain, plain.(mode := Double));
        ReadTwo(plain.(mode := Double), '\'', '"', there.(mode := Double), there.(mode := Plain));
        ReadOne(there.(mode := Plain), '\'');
        assert Apostrophe(escape) == "'\"" + ("'\"" + "'");
        ReadAppended(r, "'\"", "'\"" + "'");
        ReadAppended(plain.(mode := Double), "'\"", "'");
    }
  }

  lemma {:induction false} ReplacedReadsBack(r: Reader, word: string, escape: Escape)
    requires r.mode.Single? && r.word.Some?
    ensures ReadAll(r, Replace(word, escape)) == Some(Extend(r, word))
    decreases |word|
  {
    if word == [] {
      assert r.word.value + [] == r.word.value;
    } else {
      var first := if word[0] == '\'' then Apostrophe(escape) else [word[0]];
      ReadAppended(r, first, Replace(word[1..], escape));
      if word[0] == '\'' {
        ApostropheReadsBack(r, escape);
      } else {
        ReadOne(r, word[0]);
      }
      var next := Extend(r, [word[0]]);
      assert ReadAll(r, first) == Some(next);
      ReplacedReadsBack(next, word[1..], escape);
      assert r.word.value + [word[0]] + word[1..] == r.word.value + word;
    }
  }

  /** A quoted word is read back as itself, whatever it contains, with either way of writing apostrophes. */
  lemma QuoteReadsBack(words: seq<string>, word: string, escape: Escape)
    ensures ReadAll(Reader(Plain, words, None), Quote(word, escape)) == Some(Reader(Plain, words, Some(word)))
  {
    var r := Reader(Plain, words, None);
    var inside := Reader(Single, words, Some([]));
    ReadAppended(r, "'", Replace(word, escape) + "'");
    ReadOne(r, '\'');
    assert Quote(word, escape) == "'" + (Replace(word, escape) + "'");
    ReadAppended(inside, Replace(word, escape), "'");
    ReplacedReadsBack(inside, word, escape);
    assert Extend(inside, word) == Reader(Single, words, Some(word)) by {
      assert [] + word == word;
    }
    ReadOne(Extend(inside, word), '\'');
    assert Read(r, '\'') == Some(inside);
  }

  lemma RenderSplits(words: seq<string>)
    requires |words| > 1
    ensures RenderCommand(words) == Quote(words[0], Backslashed) + (" " + RenderCommand(words[1..]))
  {
    assert QuoteAll(words)[1..] == QuoteAll(words[1..]) && QuoteAll(words[1..]) != [];
  }

  lemma WordThenSpace(read: seq<string>, word: string, rest: string)
    ensures ReadAll(Reader(Plain, read, None), Quote(word, Backslashed) + (" " + rest)) == ReadAll(Reader(Plain, read + [word], None), rest)
  {
    hide Quote;
    var between := Reader(Plain, read, Some(word));
    QuoteReadsBack(read, word, Backslashed);
    ReadAppended(Reader(Plain, read, None), Quote(word, Backslashed), " " + rest);
    ReadAppended(between, " ", rest);
    ReadOne(between, ' ');
  }

  lemma {:induction false} RenderReadsOn(read: seq<string>, words: seq<string>)
    requires words != []
    ensures ReadAll(Reader(Plain, read, None), RenderCommand(words)) == Some(Reader(Plain, read + words[..|words| - 1], Some(words[|words| - 1])))
    decreases |words|
  {
    if |words| == 1 {
      QuoteReadsBack(read, words[0], Backslashed);
      assert QuoteAll(words[1..]) == [] && read + words[..0] == read;
    } else {
      hide ReadAll, RenderCommand, Quote;
      var rest := RenderCommand(words[1..]);
      RenderSplits(words);
      WordThenSpace(read, words[0], rest);
      RenderReadsOn(read + [words[0]], words[1..]);
      assert read + [words[0]] + words[1..][..|words[1..]| - 1] == read + words[..|words| - 1];
    }
  }

  /** Copying a printed command into a shell gives back exactly the words it was made of. */
  lemma RenderRoundTrips(words: seq<string>)
    ensures Tokenise(RenderCommand(words)) == Some(words)
  {
    if words != [] {
      RenderReadsOn([], words);
      assert [] + words[..|words| - 1] + [words[|words| - 1]] == words;
    }
  }

  /** A quoted remote command name is one argument. */
  lemma QuoteRoundTrips(word: string, escape: Escape)
    ensures Tokenise(Quote(word, escape)) == Some([word])
  {
    QuoteReadsBack([], word, escape);
    assert [] + [word] == [word];
  }
}

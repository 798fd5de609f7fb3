/** Slash commands: splitting a line at unquoted whitespace, and what survives quoting. */
module CommandLine {
  import opened Basics

  /** The characters that the pattern \s matches. */
  predicate Space(c: char) {
    || '\t' <= c <= '\r' || c == ' ' || c == '\U{A0}' || c == '\U{1680}' || '\U{2000}' <= c <= '\U{200A}'
    || c == '\U{2028}' || c == '\U{2029}' || c == '\U{202F}' || c == '\U{205F}' || c == '\U{3000}' || c == '\U{FEFF}'
  }

  predicate QuoteMark(c: char) {
    c == '"' || c == '\''
  }

  datatype Splitter = Splitter(parts: seq<string>, current: string, quote: Option<char>)

  const EMPTY := Splitter([], "", None)

  /** An empty word is never a part. */
  function Flush(s: Splitter): Splitter {
    if s.current == "" then s else s.(parts := s.parts + [s.current], current := "")
  }

  function Take(s: Splitter, c: char): Splitter {
    if QuoteMark(c) && s.quote.None? then s.(quote := Some(c))
    else if s.quote == Some(c) then s.(quote := None)
    else if Space(c) && s.quote.None? then Flush(s)
    else s.(current := s.current + [c])
  }

  function TakeAll(s: Splitter, text: string): Splitter {
    if text == "" then s else Take(TakeAll(s, text[..|text| - 1]), text[|text| - 1])
  }

  /** splitCommandLine. */
  function Split(text: string): seq<string> {
    Flush(TakeAll(EMPTY, text)).parts
  }

  method SplitCommandLine(text: string) returns (parts: seq<string>)
    ensures parts == Split(text)
  {
    parts := [];
    var current, quote: Option<char> := "", None;
    for i := 0 to |text|
      invariant TakeAll(EMPTY, text[..i]) == Splitter(parts, current, quote)
    {
      assert text[..i + 1][..i] == text[..i];
      var c := text[i];
      if QuoteMark(c) && quote.None? {
        quote := Some(c);
      } else if quote == Some(c) {
        quote := None;
      } else if Space(c) && quote.None? {
        if current != "" {
          parts := parts + [current];
          current := "";
        }
      } else {
        current := current + [c];
      }
    }
    assert text[..|text|] == text;
    if current != "" {
      parts := parts + [current];
    }
  }

  function TrimStart(s: string): string {
    if s != "" && Space(s[0]) then TrimStart(s[1..]) else s
  }

  function TrimEnd(s: string): string {
    if s != "" && Space(s[|s| - 1]) then TrimEnd(s[..|s| - 1]) else s
  }

  datatype Command = Command(name: string, args: seq<string>, raw: string)

  /** parseSlashCommand. */
  function Parse(input: string): Option<Command> {
    var trimmed := TrimEnd(TrimStart(input));
    if trimmed == "" || trimmed[0] != '/' then None
    else
      var parts := Split(trimmed[1..]);
      if parts == [] then None else Some(Command(parts[0], parts[1..], trimmed))
  }

  // ----- Writing arguments -----

  /** A stretch of an argument: in quotes of one kind that it does not contain, or bare. */
  datatype Piece = Quoted(mark: char, content: string) | Bare(text: string)

  predicate ValidPiece(p: Piece) {
    match p
    case Quoted(mark, content) => QuoteMark(mark) && mark !in content
    case Bare(text) => text != "" && forall i | 0 <= i < |text| :: !QuoteMark(text[i]) && !Space(text[i])
  }

  function Content(p: Piece): string {
    match p case Quoted(_, content) => content case Bare(text) => text
  }

  function Written(p: Piece): string {
    match p case Quoted(mark, content) => [mark] + content + [mark] case Bare(text) => text
  }

  /** What an argument is, and how it is written. */
  function Meaning(ps: seq<Piece>): string {
    if ps == [] then "" else Meaning(ps[..|ps| - 1]) + Content(ps[|ps| - 1])
  }

  function WrittenAll(ps: seq<Piece>): string {
    if ps == [] then "" else WrittenAll(ps[..|ps| - 1]) + Written(ps[|ps| - 1])
  }

  /** An argument with the whitespace before it. */
  datatype Arg = Arg(gap: string, pieces: seq<Piece>)

  predicate Blank(s: string) {
    forall i | 0 <= i < |s| :: Space(s[i])
  }

  predicate ValidArg(a: Arg) {
    Blank(a.gap) && a.gap != "" && forall i | 0 <= i < |a.pieces| :: ValidPiece(a.pieces[i])
  }

  function Line(args: seq<Arg>): string {
    if args == [] then "" else Line(args[..|args| - 1]) + args[|args| - 1].gap + WrittenAll(args[|args| - 1].pieces)
  }

  /** The arguments that are not empty. */
  function Meanings(args: seq<Arg>): seq<string> {
    if args == [] then []
    else
      var before, m := Meanings(args[..|args| - 1]), Meaning(args[|args| - 1].pieces);
      if m == "" then before else before + [m]
  }

  // ----- Reading them back -----

  lemma {:induction false} TakeMore(s: Splitter, a: string, b: string)
    ensures TakeAll(s, a + b) == TakeAll(TakeAll(s, a), b)
  {
    if b == "" {
      assert a + b == a;
    } else {
      assert (a + b)[..|a + b| - 1] == a + b[..|b| - 1];
      TakeMore(s, a, b[..|b| - 1]);
    }
  }

  lemma {:induction false} TakeOne(s: Splitter, c: char)
    ensures TakeAll(s, [c]) == Take(s, c)
  {
    assert [c][..0] == "";
  }

  /** Inside quotes everything but the mark is kept. */
  lemma {:induction false} TakeQuoted(s: Splitter, mark: char, content: string)
    requires QuoteMark(mark) && s.quote == Some(mark) && mark !in content
    ensures TakeAll(s, content) == s.(current := s.current + content)
  {
    if content == "" {
      assert s.current + content == s.current;
    } else {
      var init, c := content[..|content| - 1], content[|content| - 1];
      assert content == init + [c];
      TakeQuoted(s, mark, init);
      assert s.current + init + [c] == s.current + content;
    }
  }

  lemma {:induction false} TakeBare(s: Splitter, text: string)
    requires s.quote.None? && forall i | 0 <= i < |text| :: !QuoteMark(text[i]) && !Space(text[i])
    ensures TakeAll(s, text) == s.(current := s.current + text)
  {
    if text == "" {
      assert s.current + text == s.current;
    } else {
      var init, c := text[..|text| - 1], text[|text| - 1];
      TakeBare(s, init);
      assert s.current + init + [c] == s.current + text;
    }
  }

  lemma {:induction false} TakePiece(s: Splitter, p: Piece)
    requires s.quote.None? && ValidPiece(p)
    ensures TakeAll(s, Written(p)) == s.(current := s.current + Content(p))
  {
    match p
    case Bare(text) => TakeBare(s, text);
    case Quoted(mark, content) =>
      TakeOne(s, mark);
      var quoting := s.(quote := Some(mark));
      TakeMore(s, [mark], content);
      TakeQuoted(quoting, mark, content);
      TakeMore(s, [mark] + content, [mark]);
      TakeOne(quoting.(current := quoting.current + content), mark);
  }

  lemma {:induction false} Regroup(a: string, b: string, c: string)
    ensures a + b + c == a + (b + c)
  {
  }

  lemma {:induction false} TakePieces(s: Splitter, ps: seq<Piece>)
    requires s.quote.None? && forall i | 0 <= i < |ps| :: ValidPiece(ps[i])
    ensures TakeAll(s, WrittenAll(ps)) == s.(current := s.current + Meaning(ps))
  {
    if ps == [] {
      assert s.current + "" == s.current;
    } else {
      var init, p := ps[..|ps| - 1], ps[|ps| - 1];
      TakePieces(s, init);
      TakeMore(s, WrittenAll(init), Written(p));
      TakePiece(s.(current := s.current + Meaning(init)), p);
      Regroup(s.current, Meaning(init), Content(p));
    }
  }

  lemma {:induction false} TakeBlank(s: Splitter, gap: string)
    requires s.quote.None? && Blank(gap) && gap != ""
    ensures TakeAll(s, gap) == Flush(s)
  {
    var init, c := gap[..|gap| - 1], gap[|gap| - 1];
    if init != "" { TakeBlank(s, init); }
  }

  lemma {:induction false} TakeLine(args: seq<Arg>)
    requires forall i | 0 <= i < |args| :: ValidArg(args[i])
    ensures var s := TakeAll(EMPTY, Line(args)); s.quote.None? && Flush(s).parts == Meanings(args)
    ensures TakeAll(EMPTY, Line(args)).current == if args == [] then "" else Meaning(args[|args| - 1].pieces)
  {
    if args != [] {
      var init, a := args[..|args| - 1], args[|args| - 1];
      TakeLine(init);
      var s := TakeAll(EMPTY, Line(init));
      TakeMore(EMPTY, Line(init), a.gap);
      TakeBlank(s, a.gap);
      TakeMore(EMPTY, Line(init) + a.gap, WrittenAll(a.pieces));
      TakePieces(Flush(s), a.pieces);
      assert "" + Meaning(a.pieces) == Meaning(a.pieces);
    }
  }

  // ----- Main results -----

  /** Any arguments, written in any pieces and gaps, split into exactly the arguments that are not empty. */
  lemma {:induction false} SplitReadsArguments(args: seq<Arg>, trailing: string)
    requires (forall i | 0 <= i < |args| :: ValidArg(args[i])) && Blank(trailing)
    ensures Split(Line(args) + trailing) == Meanings(args)
  {
    TakeLine(args);
    TakeMore(EMPTY, Line(args), trailing);
    if trailing != "" {
      TakeBlank(TakeAll(EMPTY, Line(args)), trailing);
    } else {
      assert Line(args) + trailing == Line(args);
    }
  }

  /** Every argument, empty ones too. */
  function AllMeanings(args: seq<Arg>): (r: seq<string>)
    ensures |r| == |args|
    ensures forall i | 0 <= i < |args| :: r[i] == Meaning(args[i].pieces)
  {
    seq(|args|, i requires 0 <= i < |args| => Meaning(args[i].pieces))
  }

  predicate NoneEmpty(args: seq<Arg>) {
    forall i | 0 <= i < |args| :: Meaning(args[i].pieces) != ""
  }

  /** The list comes back whole exactly when no argument is empty. */
  lemma {:induction false} RoundTripIff(args: seq<Arg>)
    requires forall i | 0 <= i < |args| :: ValidArg(args[i])
    ensures Split(Line(args)) == AllMeanings(args) <==> NoneEmpty(args)
  {
    SplitReadsArguments(args, "");
    assert Line(args) + "" == Line(args);
    NonEmptyMeanings(args);
  }

  /** One quoted empty argument splits into none. */
  lemma {:induction false} EmptyArgumentIsLost()
    ensures var args := [Arg(" ", [Quoted('"', "")])];
            && ValidArg(args[0]) && Line(args) == " \"\""
            && AllMeanings(args) == [""] && Split(Line(args)) == []
  {
    var args := [Arg(" ", [Quoted('"', "")])];
    var ps := args[0].pieces;
    assert ps[..0] == [] && args[..0] == [];
    assert WrittenAll(ps) == Written(ps[0]);
    SplitReadsArguments(args, "");
    assert Line(args) + "" == Line(args);
  }

  lemma {:induction false} NonEmptyMeanings(args: seq<Arg>)
    ensures |Meanings(args)| <= |args|
    ensures NoneEmpty(args) ==> Meanings(args) == AllMeanings(args)
    ensures !NoneEmpty(args) ==> |Meanings(args)| < |args|
  {
    if args != [] {
      var init, last := args[..|args| - 1], args[|args| - 1];
      NonEmptyMeanings(init);
      assert args == init + [last];
      NoneEmptyLast(init, last);
    }
  }

  lemma {:induction false} NoneEmptyLast(init: seq<Arg>, last: Arg)
    ensures NoneEmpty(init + [last]) <==> NoneEmpty(init) && Meaning(last.pieces) != ""
    ensures AllMeanings(init + [last]) == AllMeanings(init) + [Meaning(last.pieces)]
  {
    var all := init + [last];
    assert all[|init|] == last && forall i | 0 <= i < |init| :: all[i] == init[i];
  }

  /** Any text can be written in quoted pieces: each character in the quotes that it is not. */
  function Quote(text: string): seq<Piece> {
    if text == "" then []
    else
      var c := text[|text| - 1];
      Quote(text[..|text| - 1]) + [Quoted(if c == '"' then '\'' else '"', [c])]
  }

  lemma {:induction false} InitAndLast(text: string)
    requires text != ""
    ensures text[..|text| - 1] + [text[|text| - 1]] == text
  {
  }

  lemma {:induction false} QuoteReadsBack(text: string)
    ensures Meaning(Quote(text)) == text
  {
    if text != "" {
      var init, c := text[..|text| - 1], text[|text| - 1];
      QuoteReadsBack(init);
      MeaningLast(Quote(init), Quoted(if c == '"' then '\'' else '"', [c]));
      InitAndLast(text);
    }
  }

  lemma {:induction false} QuoteIsValid(text: string)
    ensures forall p | p in Quote(text) :: ValidPiece(p)
  {
    if text != "" {
      QuoteIsValid(text[..|text| - 1]);
    }
  }

  /** Every text has a quoted form that reads back as itself. */
  lemma {:induction false} QuoteMeaning(text: string)
    ensures Meaning(Quote(text)) == text
    ensures forall p | p in Quote(text) :: ValidPiece(p)
  {
    QuoteReadsBack(text);
    QuoteIsValid(text);
  }

  lemma {:induction false} MeaningLast(ps: seq<Piece>, p: Piece)
    ensures Meaning(ps + [p]) == Meaning(ps) + Content(p)
  {
    assert (ps + [p])[..|ps|] == ps;
  }

  lemma {:induction false} TrimStartStops(s: string)
    requires s == "" || !Space(s[0])
    ensures TrimStart(s) == s
  {
  }

  lemma {:induction false} WrittenEnds(ps: seq<Piece>)
    requires ps != [] && forall i | 0 <= i < |ps| :: ValidPiece(ps[i])
    ensures WrittenAll(ps) != "" && !Space(WrittenAll(ps)[|WrittenAll(ps)| - 1])
  {
    var p := ps[|ps| - 1];
    assert Written(p)[|Written(p)| - 1] == WrittenAll(ps)[|WrittenAll(ps)| - 1];
  }

  predicate PlainName(name: string) {
    name != "" && forall i | 0 <= i < |name| :: !QuoteMark(name[i]) && !Space(name[i])
  }

  predicate WrittenArgs(args: seq<Arg>) {
    forall i | 0 <= i < |args| :: ValidArg(args[i]) && args[i].pieces != []
  }

  lemma {:induction false} CommandIsTrimmed(name: string, args: seq<Arg>)
    requires PlainName(name) && WrittenArgs(args)
    ensures var input := "/" + (name + Line(args)); TrimEnd(TrimStart(input)) == input
  {
    var input := "/" + (name + Line(args));
    assert input[0] == '/';
    TrimStartStops(input);
    if args != [] {
      var last := args[|args| - 1].pieces;
      WrittenEnds(last);
      assert input[|input| - 1] == WrittenAll(last)[|WrittenAll(last)| - 1];
    } else {
      assert input == "/" + name && input[|input| - 1] == name[|name| - 1];
    }
  }

  lemma {:induction false} LeadingBlank(gap: string, text: string)
    requires Blank(gap) && gap != ""
    ensures Split(gap + text) == Split(text)
  {
    TakeMore(EMPTY, gap, text);
    TakeBlank(EMPTY, gap);
  }

  lemma {:induction false} ArgsBehindName(name: string, args: seq<Arg>)
    requires PlainName(name) && WrittenArgs(args)
    ensures var all := [Arg(" ", [Bare(name)])] + args; forall i | 0 <= i < |all| :: ValidArg(all[i])
  {
    var all := [Arg(" ", [Bare(name)])] + args;
    forall i | 0 <= i < |all| ensures ValidArg(all[i]) {
      if i > 0 { assert all[i] == args[i - 1]; }
    }
  }

  lemma {:induction false} CommandIsSplit(name: string, args: seq<Arg>)
    requires PlainName(name) && WrittenArgs(args)
    ensures Split(name + Line(args)) == [name] + Meanings(args)
  {
    var first := Arg(" ", [Bare(name)]);
    ArgsBehindName(name, args);
    NameMeaning(name);
    LineFirst(first, args);
    MeaningsFirst(first, args);
    SplitReadsArguments([first] + args, "");
    BlankAndNothing(name, Line(args));
    LeadingBlank(" ", name + Line(args));
  }

  lemma {:induction false} BlankAndNothing(name: string, rest: string)
    ensures " " + name + rest + "" == " " + (name + rest)
  {
  }

  lemma {:induction false} ParseParts(rest: string, name: string, more: seq<string>)
    requires TrimEnd(TrimStart("/" + rest)) == "/" + rest && Split(rest) == [name] + more
    ensures Parse("/" + rest) == Some(Command(name, more, "/" + rest))
  {
    var input, parts := "/" + rest, Split(rest);
    assert input[0] == '/' && input[1..] == rest;
    assert parts[0] == name && parts[1..] == more;
  }

  /** A command name and non-empty arguments, quoted in any way, are parsed back; the name directly follows the slash. */
  lemma {:induction false} CommandRoundTrip(name: string, args: seq<Arg>)
    requires PlainName(name) && WrittenArgs(args) && NoneEmpty(args)
    ensures var input := "/" + (name + Line(args));
            Parse(input) == Some(Command(name, AllMeanings(args), input))
  {
    CommandIsTrimmed(name, args);
    CommandIsSplit(name, args);
    NonEmptyMeanings(args);
    ParseParts(name + Line(args), name, AllMeanings(args));
  }

  lemma {:induction false} NameMeaning(name: string)
    ensures Meaning([Bare(name)]) == name && WrittenAll([Bare(name)]) == name
  {
    assert [Bare(name)][..0] == [];
    assert "" + name == name;
  }

  lemma {:induction false} LineFirst(first: Arg, args: seq<Arg>)
    ensures Line([first] + args) == first.gap + WrittenAll(first.pieces) + Line(args)
  {
    if args == [] {
      assert ([first] + args)[..0] == [];
      assert "" + first.gap + WrittenAll(first.pieces) + "" == first.gap + WrittenAll(first.pieces);
    } else {
      var n := |args|;
      assert ([first] + args)[..n] == [first] + args[..n - 1];
      LineFirst(first, args[..n - 1]);
      var head, init := first.gap + WrittenAll(first.pieces), Line(args[..n - 1]);
      assert head + init + args[n - 1].gap + WrittenAll(args[n - 1].pieces) == head + (init + args[n - 1].gap + WrittenAll(args[n - 1].pieces));
    }
  }

  lemma {:induction false} MeaningsFirst(first: Arg, args: seq<Arg>)
    requires Meaning(first.pieces) != ""
    ensures Meanings([first] + args) == [Meaning(first.pieces)] + Meanings(args)
  {
    if args == [] {
      assert ([first] + args)[..0] == [];
    } else {
      var n := |args|;
      assert ([first] + args)[..n] == [first] + args[..n - 1];
      MeaningsFirst(first, args[..n - 1]);
    }
  }
}

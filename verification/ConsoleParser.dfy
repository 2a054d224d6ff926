/** Parsing of console commands (19-raft-replication/src/protocol.rs). */
module ConsoleParser {
  import opened Basics
  import opened Text

  datatype ConsoleCommand =
    | Put(key: string, value: string)
    | Get(key: string)
    | Keys
    | Scan
    | Clear
    | Status
    | Campaign
    | Exit
    | Help

  datatype ParseError = EmptyCommand | PutNotAllowed | GetUsage | PutUsage | InvalidCommand

  // ---------- Words ----------

  /** The longest whitespace-free start of a text. */
  function Word(s: string): (r: string)
    ensures r <= s
  {
    if s == [] || IsSpace(s[0]) then "" else [s[0]] + Word(s[1..])
  }

  function SplitWhitespace(s: string): seq<string>
    decreases |s|
  {
    if s == [] then []
    else if IsSpace(s[0]) then SplitWhitespace(s[1..])
    else [Word(s)] + SplitWhitespace(s[|Word(s)|..])
  }

  predicate IsWord(w: string) {
    w != [] && forall i :: 0 <= i < |w| ==> !IsSpace(w[i])
  }

  /** Text made of words with gaps before, between and after them. */
  function Join(words: seq<string>, gaps: seq<string>): string
    requires |gaps| == |words| + 1
  {
    if words == [] then gaps[0] else gaps[0] + words[0] + Join(words[1..], gaps[1..])
  }

  /** Gaps are whitespace, and those between two words are not empty. */
  ghost predicate Separates(gaps: seq<string>) {
    && (forall i :: 0 <= i < |gaps| ==> Blank(gaps[i]))
    && (forall i :: 0 < i < |gaps| - 1 ==> gaps[i] != [])
  }

  lemma {:induction false} SkipGap(gap: string, s: string)
    requires Blank(gap)
    ensures SplitWhitespace(gap + s) == SplitWhitespace(s)
  {
    if gap == [] {
      assert gap + s == s;
    } else {
      SkipGap(gap[1..], s);
      assert (gap + s)[1..] == gap[1..] + s;
    }
  }

  lemma {:induction false} WordEnds(w: string, s: string)
    requires forall i :: 0 <= i < |w| ==> !IsSpace(w[i])
    requires s == [] || IsSpace(s[0])
    ensures Word(w + s) == w
  {
    if w == [] {
      assert w + s == s;
    } else {
      WordEnds(w[1..], s);
      assert (w + s)[1..] == w[1..] + s;
    }
  }

  lemma {:induction false} JoinStart(words: seq<string>, gaps: seq<string>)
    requires |gaps| == |words| + 1 && Separates(gaps) && (words == [] || gaps[0] != [])
    ensures var s := Join(words, gaps);
            s == [] || IsSpace(s[0])
  {
  }

  /** Splitting gives back the words a text was joined from. */
  lemma {:induction false} SplitOfJoin(words: seq<string>, gaps: seq<string>)
    requires |gaps| == |words| + 1 && Separates(gaps)
    requires forall i :: 0 <= i < |words| ==> IsWord(words[i])
    ensures SplitWhitespace(Join(words, gaps)) == words
  {
    if words == [] {
      SkipGap(gaps[0], "");
      assert gaps[0] + "" == gaps[0];
    } else {
      var rest := Join(words[1..], gaps[1..]);
      assert Join(words, gaps) == gaps[0] + (words[0] + rest);
      SkipGap(gaps[0], words[0] + rest);
      JoinStart(words[1..], gaps[1..]);
      WordEnds(words[0], rest);
      assert (words[0] + rest)[|words[0]|..] == rest;
      SplitOfJoin(words[1..], gaps[1..]);
    }
  }

  lemma {:induction false} WordIsWord(s: string)
    ensures forall i :: 0 <= i < |Word(s)| ==> !IsSpace(Word(s)[i])
    ensures |Word(s)| < |s| ==> IsSpace(s[|Word(s)|])
  {
    if s != [] && !IsSpace(s[0]) {
      WordIsWord(s[1..]);
    }
  }

  /** Every text is such a join of the words it splits into. */
  lemma {:induction false} EveryTextIsAJoin(s: string) returns (gaps: seq<string>)
    ensures |gaps| == |SplitWhitespace(s)| + 1 && Separates(gaps)
    ensures Join(SplitWhitespace(s), gaps) == s
    ensures forall i :: 0 <= i < |SplitWhitespace(s)| ==> IsWord(SplitWhitespace(s)[i])
    ensures s != [] && !IsSpace(s[0]) ==> gaps[0] == []
    ensures s != [] && IsSpace(s[0]) ==> gaps[0] != []
    decreases |s|
  {
    if s == [] {
      gaps := [""];
    } else if IsSpace(s[0]) {
      var rest := EveryTextIsAJoin(s[1..]);
      gaps := [[s[0]] + rest[0]] + rest[1..];
      LongerGap([s[0]], SplitWhitespace(s), rest);
      assert s == [s[0]] + s[1..];
    } else {
      var w := Word(s);
      var tail := s[|w|..];
      WordIsWord(s);
      var rest := EveryTextIsAJoin(tail);
      gaps := [""] + rest;
      WordThenJoin(w, SplitWhitespace(tail), rest);
      if |rest| > 1 {
        assert tail != [];
      }
    }
  }

  lemma WordThenJoin(w: string, words: seq<string>, gaps: seq<string>)
    requires |gaps| == |words| + 1
    ensures Join([w] + words, [""] + gaps) == w + Join(words, gaps)
  {
    assert ([w] + words)[1..] == words && ([""] + gaps)[1..] == gaps;
  }

  lemma LongerGap(more: string, words: seq<string>, gaps: seq<string>)
    requires |gaps| == |words| + 1
    ensures Join(words, [more + gaps[0]] + gaps[1..]) == more + Join(words, gaps)
  {
    var longer := [more + gaps[0]] + gaps[1..];
    assert longer[1..] == gaps[1..];
    if words != [] {
      assert more + (gaps[0] + words[0] + Join(words[1..], gaps[1..])) ==
             more + gaps[0] + words[0] + Join(words[1..], gaps[1..]);
    }
  }

  lemma {:induction false} LongerLastGap(words: seq<string>, gaps: seq<string>, more: string)
    requires |gaps| == |words| + 1
    ensures Join(words, gaps[..|words|] + [gaps[|words|] + more]) == Join(words, gaps) + more
  {
    var longer := gaps[..|words|] + [gaps[|words|] + more];
    if words != [] {
      LongerLastGap(words[1..], gaps[1..], more);
      assert longer[1..] == gaps[1..][..|words| - 1] + [gaps[1..][|words| - 1] + more];
    }
  }

  /** Trimming a line does not change its words. */
  lemma TrimKeepsWords(s: string)
    ensures SplitWhitespace(Trim(s)) == SplitWhitespace(s)
  {
    var before, after := TrimSplits(s);
    var words := SplitWhitespace(Trim(s));
    var gaps := EveryTextIsAJoin(Trim(s));
    var longer := [before + gaps[0]] + gaps[1..];
    LongerGap(before, words, gaps);
    LongerLastGap(words, longer, after);
    SplitOfJoin(words, longer[..|words|] + [longer[|words|] + after]);
  }

  // ---------- Commands ----------

  /** Upper case as in SpecialCasing.txt and UnicodeData.txt of the Unicode Character
      Database, for the characters whose upper case consists of ASCII letters: dotless i,
      long s, sharp s and the Latin ligatures. The upper case of any other character has
      some character that occurs in no command name, and so has the character itself,
      which stands for it here. */
  function UpperChar(c: char): string {
    if 'a' <= c <= 'z' then [c - 32 as char]
    else
      match c as int
      case 0xDF => "SS"
      case 0x131 => "I"
      case 0x17F => "S"
      case 0xFB00 => "FF"
      case 0xFB01 => "FI"
      case 0xFB02 => "FL"
      case 0xFB03 => "FFI"
      case 0xFB04 => "FFL"
      case 0xFB05 => "ST"
      case 0xFB06 => "ST"
      case _ => [c]
  }

  function Upper(s: string): string {
    if s == [] then [] else UpperChar(s[0]) + Upper(s[1..])
  }

  function Expand(name: string): string {
    match name
    case "P" => "PUT"
    case "G" => "GET"
    case "K" => "KEYS"
    case "SC" => "SCAN"
    case "CL" => "CLEAR"
    case "S" => "STATUS"
    case "C" => "CAMPAIGN"
    case "H" => "HELP"
    case "E" => "EXIT"
    case _ => name
  }

  /** The command that an expanded name and the words of the line stand for. */
  function Interpret(name: string, parts: seq<string>, allowPut: bool): Result<ConsoleCommand, ParseError> {
    match name
    case "EXIT" => Ok(Exit)
    case "HELP" => Ok(Help)
    case "KEYS" => Ok(Keys)
    case "SCAN" => Ok(Scan)
    case "CLEAR" => Ok(Clear)
    case "STATUS" => Ok(Status)
    case "CAMPAIGN" => Ok(Campaign)
    case "GET" => if |parts| == 2 then Ok(Get(parts[1])) else Err(GetUsage)
    case "PUT" =>
      if |parts| == 3 then
        if allowPut then Ok(Put(parts[1], parts[2])) else Err(PutNotAllowed)
      else Err(PutUsage)
    case _ => Err(InvalidCommand)
  }

  function Parse(line: string, allowPut: bool): Result<ConsoleCommand, ParseError> {
    var trimmed := Trim(line);
    if trimmed == "" then Err(EmptyCommand)
    else
      var parts := SplitWhitespace(trimmed);
      if parts == [] then Err(EmptyCommand)
      else Interpret(Expand(Upper(parts[0])), parts, allowPut)
  }

  /** The upper-case spellings of a command's name. */
  function Spellings(c: ConsoleCommand): set<string> {
    match c
    case Put(_, _) => {"PUT", "P"}
    case Get(_) => {"GET", "G"}
    case Keys => {"KEYS", "K"}
    case Scan => {"SCAN", "SC"}
    case Clear => {"CLEAR", "CL"}
    case Status => {"STATUS", "S"}
    case Campaign => {"CAMPAIGN", "C"}
    case Exit => {"EXIT", "E"}
    case Help => {"HELP", "H"}
  }

  function Arguments(c: ConsoleCommand): seq<string> {
    match c
    case Put(key, value) => [key, value]
    case Get(key) => [key]
    case _ => []
  }

  /** The words spell the command: its name or alias in any letter case, then exactly its
      arguments; commands without arguments ignore whatever follows. */
  ghost predicate Spells(words: seq<string>, c: ConsoleCommand) {
    && words != []
    && Upper(words[0]) in Spellings(c)
    && (c.Put? || c.Get? ==> words[1..] == Arguments(c))
  }

  /** What the name of each command expands to. */
  function FullName(c: ConsoleCommand): string {
    match c
    case Put(_, _) => "PUT"
    case Get(_) => "GET"
    case Keys => "KEYS"
    case Scan => "SCAN"
    case Clear => "CLEAR"
    case Status => "STATUS"
    case Campaign => "CAMPAIGN"
    case Exit => "EXIT"
    case Help => "HELP"
  }

  lemma OneReading(name: string, c: ConsoleCommand)
    ensures name in Spellings(c) <==> Expand(name) == FullName(c)
  {
  }

  lemma InterpretedByName(name: string, parts: seq<string>, allowPut: bool, c: ConsoleCommand)
    requires parts != []
    ensures Interpret(name, parts, allowPut) == Ok(c) <==>
            && name == FullName(c)
            && (c.Put? || c.Get? ==> parts[1..] == Arguments(c))
            && (c.Put? ==> allowPut)
  {
    if c.Get? {
      assert |parts| == 2 ==> parts[1..] == [parts[1]];
    } else if c.Put? {
      assert |parts| == 3 ==> parts[1..] == [parts[1], parts[2]];
    }
  }

  /** A line parses to a command if and only if its words spell it and, for a put, puts
      are allowed. */
  lemma ParsesWhatIsSpelled(line: string, allowPut: bool, c: ConsoleCommand)
    ensures Parse(line, allowPut) == Ok(c) <==> Spells(SplitWhitespace(line), c) && (c.Put? ==> allowPut)
  {
    TrimKeepsWords(line);
    var words := SplitWhitespace(line);
    if words != [] {
      OneReading(Upper(words[0]), c);
      InterpretedByName(Expand(Upper(words[0])), words, allowPut, c);
    }
  }

  /** The name of some command, in full or as its alias. */
  predicate IsName(upper: string) {
    upper in {"PUT", "P", "GET", "G", "KEYS", "K", "SCAN", "SC", "CLEAR", "CL", "STATUS", "S", "CAMPAIGN", "C",
              "EXIT", "E", "HELP", "H"}
  }

  /** Why a line is no command, for every line: it has no words; its first word is no name;
      a get does not have one argument or a put not two; or it is a put where none is
      allowed. Each error is given in exactly that case. */
  lemma ErrorsSayWhatIsWrong(line: string, allowPut: bool)
    ensures var words := SplitWhitespace(line);
            var r := Parse(line, allowPut);
            && (r == Err(EmptyCommand) <==> words == [])
            && (r == Err(InvalidCommand) <==> words != [] && !IsName(Upper(words[0])))
            && (r == Err(GetUsage) <==> words != [] && Upper(words[0]) in {"GET", "G"} && |words| != 2)
            && (r == Err(PutUsage) <==> words != [] && Upper(words[0]) in {"PUT", "P"} && |words| != 3)
            && (r == Err(PutNotAllowed) <==>
                words != [] && Upper(words[0]) in {"PUT", "P"} && |words| == 3 && !allowPut)
  {
    TrimKeepsWords(line);
    NoWordsIffBlank(line);
    var words := SplitWhitespace(line);
    if words != [] {
      NamesExpand(Upper(words[0]));
    }
  }

  lemma NamesExpand(upper: string)
    ensures IsName(upper) <==>
            Expand(upper) in {"PUT", "GET", "KEYS", "SCAN", "CLEAR", "STATUS", "CAMPAIGN", "EXIT", "HELP"}
    ensures upper in {"GET", "G"} <==> Expand(upper) == "GET"
    ensures upper in {"PUT", "P"} <==> Expand(upper) == "PUT"
  {
  }

  /** A line without words is one of whitespace only. */
  lemma NoWordsIffBlank(line: string)
    ensures SplitWhitespace(line) == [] <==> Trim(line) == ""
  {
    BlankIffTrimmedAway(line);
    if Blank(line) {
      SkipGap(line, "");
      assert line + "" == line;
    } else {
      var gaps := EveryTextIsAJoin(line);
    }
  }

  /** ASCII text is upper-cased letter by letter. */
  lemma {:induction false} AsciiUpper(s: string)
    requires forall i :: 0 <= i < |s| ==> s[i] as int < 128
    ensures |Upper(s)| == |s|
    ensures forall i :: 0 <= i < |s| ==> Upper(s)[i] == if 'a' <= s[i] <= 'z' then s[i] - 32 as char else s[i]
  {
    if s != [] {
      AsciiUpper(s[1..]);
    }
  }

  /** Printing a command in any spelling, with any whitespace around and between its words,
      and parsing it gives the command back. */
  lemma PrintedIsParsed(c: ConsoleCommand, name: string, gaps: seq<string>)
    requires Upper(name) in Spellings(c)
    requires forall i :: 0 <= i < |Arguments(c)| ==> IsWord(Arguments(c)[i])
    requires |gaps| == |Arguments(c)| + 2 && Separates(gaps)
    ensures Parse(Join([name] + Arguments(c), gaps), true) == Ok(c)
  {
    var words := [name] + Arguments(c);
    SpellingIsWord(c, name);
    SplitOfJoin(words, gaps);
    assert words[1..] == Arguments(c);
    ParsesWhatIsSpelled(Join(words, gaps), true, c);
  }

  lemma SpellingIsWord(c: ConsoleCommand, name: string)
    requires Upper(name) in Spellings(c)
    ensures IsWord(name)
  {
    forall i | 0 <= i < |name|
      ensures !IsSpace(name[i])
    {
      if IsSpace(name[i]) {
        var k := SpaceStays(name, i);
        LetterIsNoSpace(Upper(name), c, k);
      }
    }
  }

  lemma {:induction false} SpaceStays(s: string, i: nat) returns (k: nat)
    requires i < |s| && IsSpace(s[i])
    ensures k < |Upper(s)| && Upper(s)[k] == s[i]
  {
    if i == 0 {
      k := 0;
    } else {
      var rest := SpaceStays(s[1..], i - 1);
      k := |UpperChar(s[0])| + rest;
    }
  }

  lemma LetterIsNoSpace(upper: string, c: ConsoleCommand, i: nat)
    requires upper in Spellings(c) && i < |upper|
    ensures 'A' <= upper[i] <= 'Z'
  {
  }

  /** Whatever was typed, parsed keys and values are words: not empty, no whitespace; and
      where puts are not allowed no line gives one. */
  lemma ParsedArgumentsAreWords(line: string, allowPut: bool, c: ConsoleCommand)
    requires Parse(line, allowPut) == Ok(c)
    ensures forall i :: 0 <= i < |Arguments(c)| ==> IsWord(Arguments(c)[i])
    ensures c.Put? ==> allowPut
  {
    ParsesWhatIsSpelled(line, allowPut, c);
    var gaps := EveryTextIsAJoin(line);
    var words := SplitWhitespace(line);
    forall i | 0 <= i < |Arguments(c)|
      ensures IsWord(Arguments(c)[i])
    {
      assert words[1..][i] == words[i + 1];
    }
  }
}

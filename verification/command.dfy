/**
 * The text command language (CommandProcessor.java): `parseCommand` turns
 * one line into a command or a `SimulationException`, and
 * `processCommand` runs a parsed command on the simulation, reporting a
 * `SimulationException` as an error line and letting every other
 * exception through.
 *
 * Java's string operations the parser relies on (`trim`, `startsWith`,
 * `indexOf`, `split("\\s+")`, `Integer.parseInt`) are written out here.
 */
module Commands {
  import opened Wrappers
  import opened Naming
  import opened Simulations

  datatype Command =
    | RequestItem(item: string, building: string)
    | StepBy(steps: int)
    | FinishRun
    | Verbose(level: int)
    | ConnectPair(source: string, dest: string)
    | PrintMap
    | SimpleRemovePair(source: string, dest: string)
    | ComplexRemovePair(source: string, dest: string)
    | Pause
    | Rate(rate: int)
    | BuildAt(x: int, y: int, typeName: string)
    | RemoveNamed(name: string)

  const MaxInt: int := 0x7fff_ffff
  const MinInt: int := -0x8000_0000

  // ------------------------------------------------------------------ trim

  /** A character `String.trim` removes from the ends: code point at most U+0020. */
  predicate Blank(c: char)
  {
    c as int <= 32
  }

  function TrimStart(s: string): (r: string)
    ensures |r| <= |s| && r == s[|s| - |r|..]
    ensures r == [] || !Blank(r[0])
    ensures forall k :: 0 <= k < |s| - |r| ==> Blank(s[k])
  {
    if s != [] && Blank(s[0]) then TrimStart(s[1..]) else s
  }

  function TrimEnd(s: string): (r: string)
    ensures |r| <= |s| && r == s[..|r|]
    ensures r == [] || !Blank(r[|r| - 1])
    ensures forall k :: |r| <= k < |s| ==> Blank(s[k])
  {
    if s != [] && Blank(s[|s| - 1]) then TrimEnd(s[..|s| - 1]) else s
  }

  /** `String.trim`. */
  function Trim(s: string): (r: string)
  {
    TrimEnd(TrimStart(s))
  }

  /** Where the trimmed text starts in the input. */
  function TrimOffset(s: string): nat
  {
    |s| - |TrimStart(s)|
  }

  /** The trimmed text starts and ends with a non-blank character. */
  lemma TrimEnds(s: string)
    ensures var r := Trim(s);
      r == [] || (!Blank(r[0]) && !Blank(r[|r| - 1]))
  {
    var t := TrimStart(s);
    var r := TrimEnd(t);
    if r != [] {
      assert r[0] == t[0];
    }
  }

  /**
   * The trimmed text is a stretch of the input with only blank characters
   * before and after it.
   */
  lemma TrimSlice(s: string)
    ensures var r, i := Trim(s), TrimOffset(s);
      i + |r| <= |s| && r == s[i..i + |r|]
    ensures forall k :: 0 <= k < TrimOffset(s) ==> Blank(s[k])
    ensures forall k :: TrimOffset(s) + |Trim(s)| <= k < |s| ==> Blank(s[k])
  {
    var t := TrimStart(s);
    var i := TrimOffset(s);
    assert t == s[i..];
    TrimEndBlank(s, t, i);
    assert Trim(s) == TrimEnd(t);
  }

  lemma TrimEndBlank(s: string, t: string, i: nat)
    requires i <= |s| && t == s[i..]
    ensures var r := TrimEnd(t);
      r == s[i..i + |r|] && forall k :: i + |r| <= k < |s| ==> Blank(s[k])
  {
    var r := TrimEnd(t);
    forall k | i + |r| <= k < |s|
      ensures Blank(s[k])
    {
      assert s[k] == t[k - i];
    }
  }

  /** Trimming twice changes nothing more. */
  lemma TrimIdempotent(s: string)
    ensures Trim(Trim(s)) == Trim(s)
  {
    TrimEnds(s);
    TrimUnchanged(Trim(s));
  }

  /** A string with non-blank ends is its own trim. */
  lemma TrimUnchanged(s: string)
    requires s == [] || (!Blank(s[0]) && !Blank(s[|s| - 1]))
    ensures Trim(s) == s
  {
  }

  // --------------------------------------------------------------- indexOf

  /** Java clamps a negative start index of `indexOf` to 0. */
  function Clamp(from: int): nat
  {
    if from < 0 then 0 else from
  }

  /** `String.indexOf(char, from)`: the first position at or after `from` holding `c`, or -1. */
  function IndexOfChar(s: string, c: char, from: int): (r: int)
    ensures r == -1 || (Clamp(from) <= r < |s| && s[r] == c)
    decreases |s| - Clamp(from)
  {
    if Clamp(from) >= |s| then -1
    else if s[Clamp(from)] == c then Clamp(from)
    else IndexOfChar(s, c, Clamp(from) + 1)
  }

  /** `indexOf` passes over no occurrence, and answers -1 only when there is none. */
  lemma {:induction false} IndexOfCharFirst(s: string, c: char, from: int)
    ensures var r := IndexOfChar(s, c, from);
      r >= 0 ==> forall k :: Clamp(from) <= k < r ==> s[k] != c
    ensures IndexOfChar(s, c, from) == -1 ==> forall k :: Clamp(from) <= k < |s| ==> s[k] != c
    decreases |s| - Clamp(from)
  {
    if Clamp(from) < |s| && s[Clamp(from)] != c {
      IndexOfCharFirst(s, c, Clamp(from) + 1);
    }
  }

  /** The first position `indexOf` finds is the one the caller knows of. */
  lemma {:induction false} IndexOfCharIs(s: string, c: char, from: int, i: int)
    requires Clamp(from) <= i < |s| && s[i] == c
    requires forall k :: Clamp(from) <= k < i ==> s[k] != c
    ensures IndexOfChar(s, c, from) == i
    decreases i - Clamp(from)
  {
    if Clamp(from) < i {
      IndexOfCharIs(s, c, Clamp(from) + 1, i);
    }
  }

  predicate OccursAt(s: string, w: string, i: int)
  {
    0 <= i && i + |w| <= |s| && s[i..i + |w|] == w
  }

  /** `String.indexOf(String, from)`: the first position at or after `from` where `w` starts, or -1. */
  function IndexOfWord(s: string, w: string, from: int): (r: int)
    ensures r == -1 || (Clamp(from) <= r && OccursAt(s, w, r))
    decreases |s| - Clamp(from)
  {
    if Clamp(from) + |w| > |s| then -1
    else if s[Clamp(from)..Clamp(from) + |w|] == w then Clamp(from)
    else IndexOfWord(s, w, Clamp(from) + 1)
  }

  /** `indexOf` passes over no occurrence of the word, and answers -1 only when there is none. */
  lemma {:induction false} IndexOfWordFirst(s: string, w: string, from: int)
    ensures var r := IndexOfWord(s, w, from);
      r >= 0 ==> forall k :: Clamp(from) <= k < r ==> !OccursAt(s, w, k)
    ensures IndexOfWord(s, w, from) == -1 ==> forall k :: Clamp(from) <= k ==> !OccursAt(s, w, k)
    decreases |s| - Clamp(from)
  {
    if Clamp(from) + |w| <= |s| && s[Clamp(from)..Clamp(from) + |w|] != w {
      IndexOfWordFirst(s, w, Clamp(from) + 1);
    }
  }

  lemma {:induction false} IndexOfWordIs(s: string, w: string, from: int, i: int)
    requires Clamp(from) <= i && OccursAt(s, w, i)
    requires forall k :: Clamp(from) <= k < i ==> !OccursAt(s, w, k)
    ensures IndexOfWord(s, w, from) == i
    decreases i - Clamp(from)
  {
    if Clamp(from) < i {
      IndexOfWordIs(s, w, Clamp(from) + 1, i);
    }
  }

  // ----------------------------------------------------------------- split

  /** A character the pattern `\s` matches. */
  predicate Space(c: char)
  {
    c == ' ' || c == '\t' || c == '\n' || c == '\r' || c as int == 11 || c as int == 12
  }

  /** The first position at or after `from` holding a space character, or |s|. */
  function NextSpace(s: string, from: nat): (i: nat)
    requires from <= |s|
    ensures from <= i <= |s| && (i < |s| ==> Space(s[i]))
    ensures forall k :: from <= k < i ==> !Space(s[k])
    decreases |s| - from
  {
    if from == |s| || Space(s[from]) then from else NextSpace(s, from + 1)
  }

  /** The end of the run of space characters starting at `from`. */
  function SkipSpace(s: string, from: nat): (i: nat)
    requires from <= |s|
    ensures from <= i <= |s| && (i < |s| ==> !Space(s[i]))
    ensures forall k :: from <= k < i ==> Space(s[k])
    decreases |s| - from
  {
    if from == |s| || !Space(s[from]) then from else SkipSpace(s, from + 1)
  }

  /**
   * `split("\\s+", limit)` for a positive limit, and before the removal of
   * trailing empty strings for limit 0: split at each run of spaces, at most
   * `limit - 1` times, the last piece keeping the rest of the input.
   */
  function SplitRaw(s: string, limit: nat): (parts: seq<string>)
    ensures |parts| >= 1
    ensures limit > 0 ==> |parts| <= limit
    decreases |s|
  {
    if limit == 1 then [s]
    else
      var i := NextSpace(s, 0);
      if i == |s| then [s]
      else [s[..i]] + SplitRaw(s[SkipSpace(s, i)..], if limit == 0 then 0 else limit - 1)
  }

  function DropTrailingEmpty(parts: seq<string>): seq<string>
  {
    if parts != [] && parts[|parts| - 1] == "" then DropTrailingEmpty(parts[..|parts| - 1]) else parts
  }

  /** `String.split("\\s+", limit)`. */
  function Split(s: string, limit: nat): seq<string>
  {
    if limit == 0 then DropTrailingEmpty(SplitRaw(s, 0)) else SplitRaw(s, limit)
  }

  /** A word with no space in it, then a space, then anything: the word is the first piece. */
  lemma SplitHead(w: string, sep: char, rest: string, limit: nat)
    requires limit != 1 && w != [] && Space(sep) && (rest == [] || !Space(rest[0]))
    requires forall k :: 0 <= k < |w| ==> !Space(w[k])
    ensures SplitRaw(w + [sep] + rest, limit) == [w] + SplitRaw(rest, if limit == 0 then 0 else limit - 1)
  {
    var s := w + [sep] + rest;
    assert NextSpace(s, 0) == |w| by {
      NextSpaceIs(s, |w|);
    }
    assert SkipSpace(s, |w|) == |w| + 1;
    assert s[..|w|] == w && s[|w| + 1..] == rest;
  }

  lemma NextSpaceIs(s: string, i: nat)
    requires i < |s| && Space(s[i]) && forall k :: 0 <= k < i ==> !Space(s[k])
    ensures NextSpace(s, 0) == i
  {
    var j := NextSpace(s, 0);
    assert j <= i;
  }

  /** A piece with no space in it is the whole split. */
  lemma SplitSolid(s: string, limit: nat)
    requires forall k :: 0 <= k < |s| ==> !Space(s[k])
    ensures SplitRaw(s, limit) == [s]
  {
    if limit != 1 {
      assert NextSpace(s, 0) == |s|;
    }
  }

  /** Words joined by single spaces, the way a command line is typed. */
  function Words(ws: seq<string>): string
    requires |ws| >= 1
  {
    if |ws| == 1 then ws[0] else ws[0] + " " + Words(ws[1..])
  }

  predicate SpaceFree(w: string)
  {
    forall k :: 0 <= k < |w| ==> !Space(w[k])
  }

  /** A line of non-empty words starts with the first word and ends with the last. */
  lemma {:induction false} WordsEnds(ws: seq<string>)
    requires |ws| >= 1 && forall i :: 0 <= i < |ws| ==> ws[i] != []
    ensures var s := Words(ws);
      s != [] && s[0] == ws[0][0] && s[|s| - 1] == ws[|ws| - 1][|ws[|ws| - 1]| - 1]
    decreases |ws|
  {
    if |ws| > 1 {
      WordsEnds(ws[1..]);
    }
  }

  /**
   * Splitting a line of words at runs of spaces gives the words back: with
   * no limit when no word holds a space, and with a limit of the number of
   * words when only the last one may hold spaces (after its first
   * character).
   */
  lemma {:induction false} SplitWords(ws: seq<string>, limit: nat)
    requires |ws| >= 1 && (limit == 0 || limit == |ws|)
    requires forall i :: 0 <= i < |ws| ==> ws[i] != []
    requires forall i :: 0 <= i < |ws| - 1 ==> SpaceFree(ws[i])
    requires !Space(ws[|ws| - 1][0])
    requires limit == 0 ==> SpaceFree(ws[|ws| - 1])
    ensures SplitRaw(Words(ws), limit) == ws
    decreases |ws|
  {
    if |ws| == 1 {
      if limit == 0 {
        SplitSolid(ws[0], 0);
      }
    } else {
      var rest := ws[1..];
      WordsEnds(rest);
      assert !Space(rest[0][0]) by {
        if |rest| > 1 {
          assert SpaceFree(ws[1]);
        }
      }
      assert ws[0] + " " + Words(rest) == ws[0] + [' '] + Words(rest);
      SplitHead(ws[0], ' ', Words(rest), limit);
      SplitWords(rest, if limit == 0 then 0 else limit - 1);
      assert ws == [ws[0]] + rest;
    }
  }

  // ---------------------------------------------------------------- parseInt

  predicate AllDigits(s: string)
  {
    forall i :: 0 <= i < |s| ==> '0' <= s[i] <= '9'
  }

  /**
   * `Integer.parseInt`: an optional sign, then at least one digit, and a
   * value that fits in 32 bits.
   */
  function ParseInt(s: string): (r: Option<int>)
    ensures r.Some? ==> MinInt <= r.value <= MaxInt
    ensures r.Some? ==> s != [] && (AllDigits(s) || ((s[0] == '-' || s[0] == '+') && AllDigits(s[1..])))
  {
    if s == [] then None
    else
      var signed := s[0] == '-' || s[0] == '+';
      var digits := if signed then s[1..] else s;
      if digits == [] || !AllDigits(digits) then None
      else
        var v := if s[0] == '-' then -Value(digits) else Value(digits);
        if MinInt <= v <= MaxInt then Some(v) else None
  }

  /** Java's text of a 32-bit integer parses back to it. */
  lemma ParseIntText(n: int)
    requires MinInt <= n <= MaxInt
    ensures ParseInt(IntText(n)) == Some(n)
  {
    if n < 0 {
      ValueOfDecimal(-n);
      ParseNegative(Decimal(-n));
    } else {
      ValueOfDecimal(n);
      ParseUnsigned(Decimal(n));
    }
  }

  lemma ParseUnsigned(d: string)
    requires d != [] && AllDigits(d) && 0 <= Value(d) <= MaxInt
    ensures ParseInt(d) == Some(Value(d))
  {
    assert d[0] != '-' && d[0] != '+';
  }

  lemma ParseNegative(d: string)
    requires d != [] && AllDigits(d) && MinInt <= -Value(d) <= 0
    ensures ParseInt("-" + d) == Some(-Value(d))
  {
    var s := "-" + d;
    assert s[0] == '-';
    assert s[1..] == d;
  }

  /** A digit string (or a sign) contains no space character. */
  lemma IntTextSolid(n: int)
    ensures IntText(n) != [] && forall k :: 0 <= k < |IntText(n)| ==> !Space(IntText(n)[k]) && !Blank(IntText(n)[k])
  {
    if n < 0 {
      assert forall k :: 1 <= k < |IntText(n)| ==> IntText(n)[k] == Decimal(-n)[k - 1];
    }
  }

  // ----------------------------------------------------------------- parse

  function Fail(message: string): Result<Command>
  {
    Err(SimulationException(message))
  }

  /**
   * The quote scan shared by request, connect, srm and crm: the text
   * between the first two quotes, then, from the first `word` after them,
   * the text between the next two quotes.
   */
  function Quoted(s: string, word: string): (r: Option<(string, string)>)
  {
    var q1 := IndexOfChar(s, '\'', 0);
    var q2 := IndexOfChar(s, '\'', q1 + 1);
    var w := IndexOfWord(s, word, q2);
    var q3 := IndexOfChar(s, '\'', w);
    var q4 := IndexOfChar(s, '\'', q3 + 1);
    if q1 < 0 || q2 < 0 || w < 0 || q3 < 0 || q4 < 0 then None
    else Some((s[q1 + 1..q2], s[q3 + 1..q4]))
  }

  /** The `N` of `step N`, `verbose N` and `rate N`. */
  function Number(s: string, formatError: string, numberError: string): (r: Result<int>)
    ensures r.Err? ==> r.error.SimulationException?
  {
    var parts := Split(s, 0);
    if |parts| != 2 then Err(SimulationException(formatError))
    else match ParseInt(parts[1])
      case None => Err(SimulationException(numberError))
      case Some(n) => Ok(n)
  }

  /** `parseCommand`: the line is trimmed, then classified. */
  function Parse(text: string): (r: Result<Command>)
    ensures r.Err? ==> r.error.SimulationException?
    ensures Trim(text) == [] ==> r == Fail("Empty command")
    ensures r.Ok? && r.value.StepBy? ==> 1 <= r.value.steps <= MaxInt
    ensures r.Ok? && r.value.Rate? ==> 0 <= r.value.rate <= MaxInt
    ensures r.Ok? && r.value.FinishRun? ==> Trim(text) == "finish"
    ensures r.Ok? && r.value.Pause? ==> Trim(text) == "pause"
  {
    Classify(Trim(text))
  }

  /**
   * The trimmed line is classified by its first word, in the order
   * request, step, finish, verbose, connect, printMap, srm, crm, pause,
   * rate, build, remove; "finish" and "pause" must be the whole line.
   */
  function Classify(s: string): (r: Result<Command>)
    ensures r.Err? ==> r.error.SimulationException?
    ensures s == [] ==> r == Fail("Empty command")
    ensures r.Ok? && r.value.StepBy? ==> 1 <= r.value.steps <= MaxInt
    ensures r.Ok? && r.value.Rate? ==> 0 <= r.value.rate <= MaxInt
    ensures r.Ok? && r.value.FinishRun? ==> s == "finish"
    ensures r.Ok? && r.value.Pause? ==> s == "pause"
  {
    if s == [] then Fail("Empty command")
    else if "request" <= s then
      match Quoted(s, "from")
      case None => Fail("Invalid request command format")
      case Some((item, building)) => Ok(RequestItem(item, building))
    else if "step" <= s then ParseStep(s)
    else if s == "finish" then Ok(FinishRun)
    else if "verbose" <= s then
      match Number(s, "Invalid verbose command format", "Invalid number for verbose command")
      case Err(e) => Err(e)
      case Ok(n) => Ok(Verbose(n))
    else if "connect" <= s then
      match Quoted(s, "to")
      case None => Fail("Invalid connect command format")
      case Some((a, b)) => Ok(ConnectPair(a, b))
    else if "printMap" <= s then Ok(PrintMap)
    else if "srm" <= s then
      match Quoted(s, "to")
      case None => Fail("Invalid connect command format")
      case Some((a, b)) => Ok(SimpleRemovePair(a, b))
    else if "crm" <= s then
      match Quoted(s, "to")
      case None => Fail("Invalid connect command format")
      case Some((a, b)) => Ok(ComplexRemovePair(a, b))
    else if s == "pause" then Ok(Pause)
    else if "rate" <= s then ParseRate(s)
    else if "build" <= s then ParseBuild(s)
    else if "remove" <= s then ParseRemove(s)
    else Fail("Unknown command")
  }

  /** `step N`: exactly two words, a 32-bit number, at least 1. */
  function ParseStep(s: string): (r: Result<Command>)
    ensures r.Err? ==> r.error.SimulationException?
    ensures r.Ok? ==> r.value.StepBy? && 1 <= r.value.steps <= MaxInt
  {
    match Number(s, "Invalid step command format", "Invalid number for step command")
    case Err(e) => Err(e)
    case Ok(n) => if n < 1 then Fail("Step value must be >= 1") else Ok(StepBy(n))
  }

  /** `rate N`: exactly two words, a 32-bit number, not negative. */
  function ParseRate(s: string): (r: Result<Command>)
    ensures r.Err? ==> r.error.SimulationException?
    ensures r.Ok? ==> r.value.Rate? && 0 <= r.value.rate <= MaxInt
  {
    match Number(s, "Invalid rate command format", "Invalid number for rate command")
    case Err(e) => Err(e)
    case Ok(n) => if n < 0 then Fail("Rate must be a non-negative integer") else Ok(Rate(n))
  }

  /** `build X Y TYPE`: split at most three times, two 32-bit coordinates, the rest the type. */
  function ParseBuild(s: string): (r: Result<Command>)
    ensures r.Err? ==> r.error.SimulationException?
    ensures r.Ok? ==> r.value.BuildAt? && MinInt <= r.value.x <= MaxInt && MinInt <= r.value.y <= MaxInt
  {
    var parts := Split(s, 4);
    if |parts| != 4 then Fail("Invalid build command format")
    else
      match (ParseInt(parts[1]), ParseInt(parts[2]))
      case (Some(x), Some(y)) => Ok(BuildAt(x, y, parts[3]))
      case _ => Fail("Invalid coordinates for build command")
  }

  /** `remove NAME`: split once, the rest the name. */
  function ParseRemove(s: string): (r: Result<Command>)
    ensures r.Err? ==> r.error.SimulationException?
    ensures r.Ok? ==> r.value.RemoveNamed?
  {
    var parts := Split(s, 2);
    if |parts| != 2 then Fail("Invalid remove command format")
    else Ok(RemoveNamed(parts[1]))
  }

  /** `parseCommand` reads the trimmed line, so blanks around a command change nothing. */
  lemma ParseIgnoresBlanks(text: string)
    ensures Parse(Trim(text)) == Parse(text)
  {
    TrimIdempotent(text);
  }

  // ----------------------------------------------------- the command texts

  predicate NoQuote(s: string)
  {
    forall k :: 0 <= k < |s| ==> s[k] != '\''
  }

  /** A word `split` keeps whole at the end of a line: non-empty, with non-blank ends. */
  predicate Solid(s: string)
  {
    s != [] && !Blank(s[0]) && !Blank(s[|s| - 1])
  }

  /** The start `<head> '<a>` of a two-name command. */
  function Opening(head: string, a: string): string
  {
    head + " '" + a
  }

  /** The end `' <word> '<b>'` of a two-name command. */
  function Closing(word: string, b: string): string
  {
    "' " + word + " '" + b + "'"
  }

  /** The two-name form `<head> '<a>' <word> '<b>'`. */
  function QuotePair(head: string, a: string, word: string, b: string): string
  {
    Opening(head, a) + Closing(word, b)
  }

  /** The text a user types for a command. */
  function Format(c: Command): string
  {
    match c
    case RequestItem(item, building) => QuotePair("request", item, "from", building)
    case StepBy(n) => Words(["step", IntText(n)])
    case FinishRun => "finish"
    case Verbose(n) => Words(["verbose", IntText(n)])
    case ConnectPair(a, b) => QuotePair("connect", a, "to", b)
    case PrintMap => "printMap"
    case SimpleRemovePair(a, b) => QuotePair("srm", a, "to", b)
    case ComplexRemovePair(a, b) => QuotePair("crm", a, "to", b)
    case Pause => "pause"
    case Rate(n) => Words(["rate", IntText(n)])
    case BuildAt(x, y, t) => Words(["build", IntText(x), IntText(y), t])
    case RemoveNamed(n) => Words(["remove", n])
  }

  /**
   * The commands that have a text: names without quotes, numbers that fit
   * in 32 bits and meet the parser's bounds, and a trailing type or
   * building name with non-blank ends.
   */
  predicate WellFormed(c: Command)
  {
    match c
    case RequestItem(item, building) => NoQuote(item) && NoQuote(building)
    case StepBy(n) => 1 <= n <= MaxInt
    case Verbose(n) => MinInt <= n <= MaxInt
    case ConnectPair(a, b) => NoQuote(a) && NoQuote(b)
    case SimpleRemovePair(a, b) => NoQuote(a) && NoQuote(b)
    case ComplexRemovePair(a, b) => NoQuote(a) && NoQuote(b)
    case Rate(n) => 0 <= n <= MaxInt
    case BuildAt(x, y, t) => MinInt <= x <= MaxInt && MinInt <= y <= MaxInt && Solid(t)
    case RemoveNamed(n) => Solid(n)
    case _ => true
  }

  /** The first quote at or after `from` is the one right after `u`. */
  lemma FindQuote(u: string, v: string, from: nat)
    requires from <= |u| && NoQuote(u[from..])
    ensures IndexOfChar(u + "'" + v, '\'', from) == |u|
  {
    var s := u + "'" + v;
    forall k | from <= k < |u|
      ensures s[k] != '\''
    {
      assert s[k] == u[from..][k - from];
    }
    IndexOfCharIs(s, '\'', from, |u|);
  }

  /** One step of the word search: no match at `from`, so the search moves on. */
  lemma IndexOfWordSkip(s: string, w: string, from: nat)
    requires from + |w| <= |s| && s[from..from + |w|] != w
    ensures IndexOfWord(s, w, from) == IndexOfWord(s, w, from + 1)
  {
  }

  /** The closing text holds the word two characters in. */
  lemma ClosingWord(p: string, word: string, b: string)
    ensures OccursAt(p + Closing(word, b), word, |p| + 2)
  {
    var s := p + Closing(word, b);
    var c := Closing(word, b);
    var n := |p|;
    forall k | 0 <= k < |word|
      ensures s[n + 2..n + 2 + |word|][k] == word[k]
    {
      assert s[n + 2 + k] == c[2 + k];
    }
  }

  /** A position whose character differs from the word's first is passed over. */
  lemma SkipAt(s: string, w: string, i: nat)
    requires i < |s| && w != [] && s[i] != w[0]
    ensures IndexOfWord(s, w, i) == IndexOfWord(s, w, i + 1)
  {
    if i + |w| <= |s| {
      assert s[i..i + |w|][0] == s[i];
      IndexOfWordSkip(s, w, i);
    }
  }

  /** A word that starts with neither a quote nor a space is not found at the "' " before it. */
  lemma ClosingSkip(p: string, word: string, b: string)
    requires word != [] && word[0] != ' ' && word[0] != '\''
    ensures IndexOfWord(p + Closing(word, b), word, |p|) == IndexOfWord(p + Closing(word, b), word, |p| + 2)
  {
    var s := p + Closing(word, b);
    assert s[|p|] == '\'' && s[|p| + 1] == ' ';
    SkipAt(s, word, |p|);
    SkipAt(s, word, |p| + 1);
  }

  /** Searched for from a closing quote, the word after "' " is found there. */
  lemma FindWord(p: string, word: string, b: string)
    requires word != [] && word[0] != ' ' && word[0] != '\''
    ensures IndexOfWord(p + Closing(word, b), word, |p|) == |p| + 2
  {
    ClosingSkip(p, word, b);
    ClosingWord(p, word, b);
    IndexOfWordIs(p + Closing(word, b), word, |p| + 2, |p| + 2);
  }

  /** After the word, the next two quotes enclose the second name. */
  lemma FindSecondPair(p: string, word: string, b: string)
    requires NoQuote(word) && NoQuote(b)
    ensures var s, w := p + Closing(word, b), |p| + 2;
      IndexOfChar(s, '\'', w) == w + |word| + 1 &&
      IndexOfChar(s, '\'', w + |word| + 2) == |s| - 1 &&
      s[w + |word| + 2..|s| - 1] == b
  {
    var s := p + Closing(word, b);
    var w := |p| + 2;
    var p3 := p + "' " + word + " ";
    assert s == p3 + "'" + (b + "'");
    assert p3[w..] == word + " ";
    FindQuote(p3, b + "'", w);
    var u4 := p3 + "'" + b;
    assert s == u4 + "'" + "";
    assert u4[|p3| + 1..] == b;
    FindQuote(u4, "", |p3| + 1);
  }

  /** The quote scan, given where each quote and the word are. */
  lemma QuotedIs(s: string, word: string, a: string, b: string, q1: int, q2: int, w: int, q3: int, q4: int)
    requires IndexOfChar(s, '\'', 0) == q1 && IndexOfChar(s, '\'', q1 + 1) == q2
    requires IndexOfWord(s, word, q2) == w && IndexOfChar(s, '\'', w) == q3
    requires IndexOfChar(s, '\'', q3 + 1) == q4
    requires 0 <= q1 && 0 <= q2 && 0 <= w && 0 <= q3 && 0 <= q4
    requires q1 < q2 && q3 < q4 && s[q1 + 1..q2] == a && s[q3 + 1..q4] == b
    ensures Quoted(s, word) == Some((a, b))
  {
    assert Quoted(s, word) == Some((s[q1 + 1..q2], s[q3 + 1..q4]));
  }

  /** The first two quotes of a two-name text enclose the first name. */
  lemma FindFirstPair(head: string, a: string, rest: string)
    requires NoQuote(head) && NoQuote(a)
    ensures var s := Opening(head, a) + rest;
      IndexOfChar(s, '\'', 0) == |head| + 1 &&
      (|s| > |head| + 2 + |a| && s[|head| + 2 + |a|] == '\'' ==>
        IndexOfChar(s, '\'', |head| + 2) == |head| + 2 + |a|) &&
      s[|head| + 2..|head| + 2 + |a|] == a
  {
    var s := Opening(head, a) + rest;
    var u1 := head + " ";
    assert s == u1 + "'" + (a + rest);
    assert u1[0..] == head + " ";
    FindQuote(u1, a + rest, 0);
    if |s| > |head| + 2 + |a| && s[|head| + 2 + |a|] == '\'' {
      var u2 := Opening(head, a);
      assert s == u2 + "'" + rest[1..];
      assert u2[|u1| + 1..] == a;
      FindQuote(u2, rest[1..], |u1| + 1);
    }
  }

  /** Where the quote scan finds the first name in a two-name text. */
  lemma QuotePairFront(head: string, a: string, word: string, b: string)
    requires NoQuote(head) && NoQuote(a)
    ensures var s, u2 := QuotePair(head, a, word, b), |head| + 2 + |a|;
      IndexOfChar(s, '\'', 0) == |head| + 1 && IndexOfChar(s, '\'', |head| + 2) == u2 &&
      s[|head| + 2..u2] == a
  {
    var rest := Closing(word, b);
    assert rest[0] == '\'';
    FindFirstPair(head, a, rest);
  }

  /** Where the quote scan finds the word in a two-name text. */
  lemma QuotePairWord(head: string, a: string, word: string, b: string)
    requires word != [] && word[0] != ' ' && word[0] != '\''
    ensures IndexOfWord(QuotePair(head, a, word, b), word, |head| + 2 + |a|) == |head| + 4 + |a|
  {
    FindWord(Opening(head, a), word, b);
  }

  /** Where the quote scan finds the second name in a two-name text. */
  lemma QuotePairBack(head: string, a: string, word: string, b: string)
    requires NoQuote(word) && NoQuote(b)
    ensures var s, w := QuotePair(head, a, word, b), |head| + 4 + |a|;
      IndexOfChar(s, '\'', w) == w + |word| + 1 &&
      IndexOfChar(s, '\'', w + |word| + 2) == |s| - 1 &&
      s[w + |word| + 2..|s| - 1] == b
  {
    FindSecondPair(Opening(head, a), word, b);
  }

  /** The quote scan reads back both names of a two-name command. */
  lemma QuotedRoundTrip(head: string, a: string, word: string, b: string)
    requires NoQuote(head) && NoQuote(a) && NoQuote(word) && NoQuote(b)
    requires word != [] && word[0] != ' '
    ensures Quoted(QuotePair(head, a, word, b), word) == Some((a, b))
  {
    var s := QuotePair(head, a, word, b);
    var q1, q2 := |head| + 1, |head| + 2 + |a|;
    var q3, q4 := q2 + 3 + |word|, |s| - 1;
    assert IndexOfChar(s, '\'', 0) == q1 && IndexOfChar(s, '\'', q1 + 1) == q2 && s[q1 + 1..q2] == a by {
      QuotePairFront(head, a, word, b);
    }
    assert IndexOfWord(s, word, q2) == q2 + 2 by {
      QuotePairWord(head, a, word, b);
    }
    assert IndexOfChar(s, '\'', q2 + 2) == q3 && IndexOfChar(s, '\'', q3 + 1) == q4 && s[q3 + 1..q4] == b by {
      QuotePairBack(head, a, word, b);
    }
    QuotedIs(s, word, a, b, q1, q2, q2 + 2, q3, q4);
  }

  /** `<word> <n>` splits into the word and the digits of `n`, which read back as `n`. */
  lemma NumberRoundTrip(word: string, n: int, formatError: string, numberError: string)
    requires MinInt <= n <= MaxInt
    requires word != [] && SpaceFree(word)
    ensures Number(Words([word, IntText(n)]), formatError, numberError) == Ok(n)
  {
    IntTextSolid(n);
    SplitWords([word, IntText(n)], 0);
    assert DropTrailingEmpty([word, IntText(n)]) == [word, IntText(n)];
    ParseIntText(n);
  }

  /** The text of a command needs no trimming. */
  lemma FormatTrimmed(c: Command)
    requires WellFormed(c)
    ensures Trim(Format(c)) == Format(c)
  {
    assert Solid(Format(c)) by {
      FormatSolid(c);
    }
    TrimUnchanged(Format(c));
  }

  /** The text of a command starts and ends with a non-blank character. */
  lemma FormatSolid(c: Command)
    requires WellFormed(c)
    ensures Solid(Format(c))
  {
    match c
    case RequestItem(item, building) =>
      QuotePairEnds("request", item, "from", building);
    case StepBy(n) =>
      IntTextSolid(n);
      WordsEnds(["step", IntText(n)]);
    case FinishRun =>
    case Verbose(n) =>
      IntTextSolid(n);
      WordsEnds(["verbose", IntText(n)]);
    case ConnectPair(a, b) =>
      QuotePairEnds("connect", a, "to", b);
    case PrintMap =>
    case SimpleRemovePair(a, b) =>
      QuotePairEnds("srm", a, "to", b);
    case ComplexRemovePair(a, b) =>
      QuotePairEnds("crm", a, "to", b);
    case Pause =>
    case Rate(n) =>
      IntTextSolid(n);
      WordsEnds(["rate", IntText(n)]);
    case BuildAt(x, y, t) =>
      WordsEnds(["build", IntText(x), IntText(y), t]);
    case RemoveNamed(n) =>
      WordsEnds(["remove", n]);
  }

  lemma QuotePairEnds(head: string, a: string, word: string, b: string)
    requires head != []
    ensures var s := QuotePair(head, a, word, b);
      s[0] == head[0] && s[|s| - 1] == '\''
  {
  }

  /** Parsing the text of a well-formed command gives the command back. */
  lemma ParseFormat(c: Command)
    requires WellFormed(c)
    ensures Parse(Format(c)) == Ok(c)
  {
    FormatTrimmed(c);
    ClassifyFormat(c);
  }

  lemma ClassifyFormat(c: Command)
    requires WellFormed(c)
    ensures Classify(Format(c)) == Ok(c)
  {
    match c
    case RequestItem(item, building) =>
      QuotedRoundTrip("request", item, "from", building);
    case StepBy(n) =>
      ClassifyStep(n);
    case FinishRun =>
    case Verbose(n) =>
      ClassifyVerbose(n);
    case ConnectPair(a, b) =>
      ClassifyConnect(a, b);
    case PrintMap =>
    case SimpleRemovePair(a, b) =>
      ClassifySimpleRemove(a, b);
    case ComplexRemovePair(a, b) =>
      ClassifyComplexRemove(a, b);
    case Pause =>
    case Rate(n) =>
      ClassifyRate(n);
    case BuildAt(x, y, t) =>
      ClassifyBuild(x, y, t);
    case RemoveNamed(n) =>
      ClassifyRemove(n);
  }

  /** A word is not a prefix of a line that differs from it at some position. */
  lemma NotPrefix(w: string, s: string, i: nat)
    requires i < |w| && i < |s| && w[i] != s[i]
    ensures !(w <= s)
  {
  }

  lemma ClassifyStep(n: int)
    requires 1 <= n <= MaxInt
    ensures Classify(Format(StepBy(n))) == Ok(StepBy(n))
  {
    var s := Format(StepBy(n));
    IntTextSolid(n);
    WordsEnds(["step", IntText(n)]);
    assert s[..5] == "step ";
    NotPrefix("request", s, 0);
    NumberRoundTrip("step", n, "Invalid step command format", "Invalid number for step command");
  }

  lemma ClassifyVerbose(n: int)
    requires MinInt <= n <= MaxInt
    ensures Classify(Format(Verbose(n))) == Ok(Verbose(n))
  {
    var s := Format(Verbose(n));
    IntTextSolid(n);
    assert s[..8] == "verbose ";
    NotPrefix("request", s, 0);
    NotPrefix("step", s, 0);
    NumberRoundTrip("verbose", n, "Invalid verbose command format", "Invalid number for verbose command");
  }

  lemma ClassifyRate(n: int)
    requires 0 <= n <= MaxInt
    ensures Classify(Format(Rate(n))) == Ok(Rate(n))
  {
    var s := Format(Rate(n));
    IntTextSolid(n);
    assert s[..5] == "rate ";
    NotPrefix("request", s, 1);
    NotPrefix("step", s, 0);
    NotPrefix("verbose", s, 0);
    NotPrefix("connect", s, 0);
    NotPrefix("printMap", s, 0);
    NotPrefix("srm", s, 0);
    NotPrefix("crm", s, 0);
    NumberRoundTrip("rate", n, "Invalid rate command format", "Invalid number for rate command");
  }

  lemma ClassifyConnect(a: string, b: string)
    requires NoQuote(a) && NoQuote(b)
    ensures Classify(Format(ConnectPair(a, b))) == Ok(ConnectPair(a, b))
  {
    var s := Format(ConnectPair(a, b));
    assert s[..9] == "connect '";
    NotPrefix("request", s, 0);
    NotPrefix("step", s, 0);
    NotPrefix("verbose", s, 0);
    QuotedRoundTrip("connect", a, "to", b);
  }

  lemma ClassifySimpleRemove(a: string, b: string)
    requires NoQuote(a) && NoQuote(b)
    ensures Classify(Format(SimpleRemovePair(a, b))) == Ok(SimpleRemovePair(a, b))
  {
    var s := Format(SimpleRemovePair(a, b));
    assert s[..5] == "srm '";
    NotPrefix("request", s, 0);
    NotPrefix("step", s, 1);
    NotPrefix("verbose", s, 0);
    NotPrefix("connect", s, 0);
    NotPrefix("printMap", s, 0);
    QuotedRoundTrip("srm", a, "to", b);
  }

  lemma ClassifyComplexRemove(a: string, b: string)
    requires NoQuote(a) && NoQuote(b)
    ensures Classify(Format(ComplexRemovePair(a, b))) == Ok(ComplexRemovePair(a, b))
  {
    var s := Format(ComplexRemovePair(a, b));
    assert s[..5] == "crm '";
    NotPrefix("request", s, 0);
    NotPrefix("step", s, 0);
    NotPrefix("verbose", s, 0);
    NotPrefix("connect", s, 1);
    NotPrefix("printMap", s, 0);
    NotPrefix("srm", s, 0);
    QuotedRoundTrip("crm", a, "to", b);
  }

  lemma ClassifyBuild(x: int, y: int, t: string)
    requires MinInt <= x <= MaxInt && MinInt <= y <= MaxInt && Solid(t)
    ensures Classify(Format(BuildAt(x, y, t))) == Ok(BuildAt(x, y, t))
  {
    var s := Format(BuildAt(x, y, t));
    assert s[..6] == "build " by {
      IntTextSolid(x);
    }
    NotPrefix("request", s, 0);
    NotPrefix("step", s, 0);
    NotPrefix("verbose", s, 0);
    NotPrefix("connect", s, 0);
    NotPrefix("printMap", s, 0);
    NotPrefix("srm", s, 0);
    NotPrefix("crm", s, 0);
    NotPrefix("rate", s, 0);
    ParseBuildWords(x, y, t);
  }

  lemma ParseBuildWords(x: int, y: int, t: string)
    requires MinInt <= x <= MaxInt && MinInt <= y <= MaxInt && Solid(t)
    ensures ParseBuild(Words(["build", IntText(x), IntText(y), t])) == Ok(BuildAt(x, y, t))
  {
    var ws := ["build", IntText(x), IntText(y), t];
    assert Split(Words(ws), 4) == ws by {
      IntTextSolid(x);
      IntTextSolid(y);
      assert SpaceFree(ws[0]) && SpaceFree(ws[1]) && SpaceFree(ws[2]);
      SplitWords(ws, 4);
    }
    ParseIntText(x);
    ParseIntText(y);
  }

  lemma ClassifyRemove(n: string)
    requires Solid(n)
    ensures Classify(Format(RemoveNamed(n))) == Ok(RemoveNamed(n))
  {
    var s := Format(RemoveNamed(n));
    assert s[..7] == "remove ";
    NotPrefix("request", s, 2);
    NotPrefix("step", s, 0);
    NotPrefix("verbose", s, 0);
    NotPrefix("connect", s, 0);
    NotPrefix("printMap", s, 0);
    NotPrefix("srm", s, 0);
    NotPrefix("crm", s, 0);
    NotPrefix("rate", s, 1);
    NotPrefix("build", s, 0);
    SplitWords(["remove", n], 2);
  }

  // --------------------------------------------------------------- execute

  /**
   * `Command.execute`: each command calls its simulation operation; what
   * the commands print is left out. `finish` runs at most `rounds` steps
   * here, and a finish that would go on longer fails with `Exhausted`.
   */
  method Execute(sim: Simulation, c: Command, fuel: nat, rounds: nat) returns (err: Option<Failure>)
    requires sim.Valid()
    modifies sim, sim.roadMap
    ensures sim.Valid()
    ensures c.Verbose? || c.Pause? || c.Rate? || c.PrintMap? || c.SimpleRemovePair? || c.ComplexRemovePair? ==> err.None?
    ensures c.Verbose? || c.Pause? || c.Rate? || c.PrintMap? ==>
      sim.time == old(sim.time) && sim.buildings == old(sim.buildings) &&
      sim.userRequests == old(sim.userRequests) && unchanged(sim.roadMap)
    ensures c.Verbose? ==> sim.verbosity == c.level && sim.rate == old(sim.rate)
    ensures c.Pause? ==> sim.rate == 0 && sim.verbosity == old(sim.verbosity)
    ensures c.Rate? ==> sim.rate == c.rate && sim.verbosity == old(sim.verbosity)
    ensures c.PrintMap? ==> unchanged(sim)
    ensures c.StepBy? && c.steps >= 0 && err.None? ==> sim.time == old(sim.time) + c.steps
    ensures c.FinishRun? && err.None? ==> sim.userRequests == []
    ensures c.FinishRun? && old(sim.userRequests) == [] ==> err.None? && sim.time == old(sim.time)
    ensures c.RequestItem? && err.None? ==> sim.userRequests == old(sim.userRequests) + [old(sim.nextId)]
    ensures c.RemoveNamed? ==> (err.None? <==> c.name in old(sim.buildings))
    ensures c.ConnectPair? ==> (err.None? <==> c.source in old(sim.buildings) && c.dest in old(sim.buildings))
    ensures c.BuildAt? && err.None? ==> |sim.buildings.Keys| == |old(sim.buildings).Keys| + 1
  {
    if c.Verbose? || c.Pause? || c.Rate? || c.PrintMap? {
      ExecuteSetting(sim, c);
      err := None;
    } else if c.SimpleRemovePair? || c.ComplexRemovePair? {
      ExecuteRemoval(sim, c);
      err := None;
    } else {
      err := ExecuteOperation(sim, c, fuel, rounds);
    }
  }

  /** The commands that only change how the simulation runs or prints. */
  method ExecuteSetting(sim: Simulation, c: Command)
    requires sim.Valid()
    requires c.Verbose? || c.Pause? || c.Rate? || c.PrintMap?
    modifies sim
    ensures sim.Valid()
    ensures sim.time == old(sim.time) && sim.buildings == old(sim.buildings)
    ensures sim.userRequests == old(sim.userRequests)
    ensures c.Verbose? ==> sim.verbosity == c.level && sim.rate == old(sim.rate)
    ensures c.Pause? ==> sim.rate == 0 && sim.verbosity == old(sim.verbosity)
    ensures c.Rate? ==> sim.rate == c.rate && sim.verbosity == old(sim.verbosity)
    ensures c.PrintMap? ==> unchanged(sim)
  {
    match c {
      case Verbose(level) => sim.SetVerbosity(level);
      case Pause => sim.SetRate(0);
      case Rate(r) => sim.SetRate(r);
      case PrintMap =>
    }
  }

  /** `srm` and `crm`: removing a road never fails. */
  method ExecuteRemoval(sim: Simulation, c: Command)
    requires sim.Valid()
    requires c.SimpleRemovePair? || c.ComplexRemovePair?
    modifies sim, sim.roadMap
    ensures sim.Valid()
  {
    if c.SimpleRemovePair? {
      sim.SimpleRemove(c.source, c.dest);
    } else {
      sim.ComplexRemove(c.source, c.dest);
    }
  }

  /** The commands that act on the factory: request, step, finish, connect, build and remove. */
  method ExecuteOperation(sim: Simulation, c: Command, fuel: nat, rounds: nat) returns (err: Option<Failure>)
    requires sim.Valid()
    requires c.RequestItem? || c.StepBy? || c.FinishRun? || c.ConnectPair? || c.BuildAt? || c.RemoveNamed?
    modifies sim, sim.roadMap
    ensures sim.Valid()
    ensures c.StepBy? && c.steps >= 0 && err.None? ==> sim.time == old(sim.time) + c.steps
    ensures c.FinishRun? && err.None? ==> sim.userRequests == []
    ensures c.FinishRun? && old(sim.userRequests) == [] ==> err.None? && sim.time == old(sim.time)
    ensures c.RequestItem? && err.None? ==> sim.userRequests == old(sim.userRequests) + [old(sim.nextId)]
    ensures c.RemoveNamed? ==> (err.None? <==> c.name in old(sim.buildings))
    ensures c.ConnectPair? ==> (err.None? <==> c.source in old(sim.buildings) && c.dest in old(sim.buildings))
    ensures c.BuildAt? && err.None? ==> |sim.buildings.Keys| == |old(sim.buildings).Keys| + 1
  {
    match c {
      case RequestItem(item, building) =>
        ghost var missing, validated, probes, walked, mid, grants;
        err, missing, validated, probes, walked, mid, grants := sim.HandleRequest(item, building, fuel);
      case StepBy(n) =>
        var rejected;
        err, rejected := sim.Step(n, fuel);
      case FinishRun =>
        var finished;
        err, finished := sim.Finish(fuel, rounds);
        if err.None? && !finished {
          err := Some(Exhausted);
        }
      case ConnectPair(a, b) =>
        ghost var path;
        err, path := sim.Connect(a, b);
      case BuildAt(x, y, t) =>
        ghost var name, k;
        err, name, k := sim.Build(t, x, y);
        if err.None? {
          assert sim.buildings.Keys == old(sim.buildings).Keys + {name};
        }
      case RemoveNamed(name) =>
        err := sim.RemoveBuilding(name);
    }
  }

  /**
   * `processCommand`: a line that does not parse, and a command that
   * fails with a `SimulationException`, are reported as "Error: " and the
   * message; any other failure escapes the command loop. A line that does
   * not parse changes nothing.
   */
  method ProcessCommand(sim: Simulation, text: string, fuel: nat, rounds: nat)
    returns (report: Option<string>, crash: Option<Failure>)
    requires sim.Valid()
    modifies sim, sim.roadMap
    ensures sim.Valid()
    ensures report.Some? ==> crash.None? && "Error: " <= report.value
    ensures crash.Some? ==> !crash.value.SimulationException?
    ensures Parse(text).Err? ==>
      report == Some("Error: " + Parse(text).error.message) && crash.None? &&
      unchanged(sim) && unchanged(sim.roadMap)
  {
    match Parse(text)
    case Err(e) =>
      return Some("Error: " + e.message), None;
    case Ok(c) =>
      var err := Execute(sim, c, fuel, rounds);
      match err
      case None =>
        return None, None;
      case Some(SimulationException(message)) =>
        return Some("Error: " + message), None;
      case Some(f) =>
        return None, Some(f);
  }
}

/**
 * CommunicationControl: the field readers that turn input lines into worker fields.
 *
 * Every reader takes lines from the current Scanner. With `loop` set (interactive
 * use) a bad line is reported and the reader asks again; with `loop` cleared (a
 * script is running) the `finally` block turns the first bad line into
 * InputException. The readers are specified by functions over the remaining lines
 * that return what was read and the lines left over.
 */
module Input {
  import opened JavaLang
  import opened Data

  /** The lines a Scanner has yet to hand out. */
  class Stream {
    var lines: seq<string>

    constructor(lines: seq<string>)
      ensures this.lines == lines
    {
      this.lines := lines;
    }

    /** Scanner.nextLine: the next line, or NoSuchElementException (None) when none is left. */
    method NextLine() returns (line: Option<string>)
      modifies this
      ensures old(lines) == [] ==> line == None && lines == []
      ensures old(lines) != [] ==> line == Some(old(lines)[0]) && lines == old(lines)[1..]
    {
      if lines == [] {
        line := None;
      } else {
        line := Some(lines[0]);
        lines := lines[1..];
      }
    }
  }

  /** An exception other than InputException that can leave a reader. */
  datatype Escape =
    | NoSuchElement  // Scanner.nextLine at the end of the input
    | NumberFormat   // Double.parseDouble on a salary that is not a number

  /**
   * The outcome of a reader: a value, InputException, or another exception that
   * leaves the reader (NoSuchElementException at the end of the interactive input,
   * or the NumberFormatException setSalary does not catch).
   */
  datatype Read<+T> = Got(value: T) | Invalid | Escaped(cause: Escape)
  {
    /** The same failure, as the outcome of an enclosing reader. */
    function Fail<U>(): Read<U>
      requires !Got?
    {
      if Invalid? then Invalid else Escaped(cause)
    }
  }

  /**
   * What one try of a reader makes of a line: a value, an exception the reader
   * catches (so it asks again when interactive), or one it does not catch.
   */
  datatype Conversion<+T> = Converted(value: T) | Refused | Thrown

  /** A conversion whose every failure is caught by the reader. */
  function Caught<T>(parse: string -> Option<T>): string -> Conversion<T>
  {
    line => if parse(line).Some? then Converted(parse(line).value) else Refused
  }

  predicate IsSuffix<T(==)>(rest: seq<T>, lines: seq<T>)
  {
    |rest| <= |lines| && rest == lines[|lines| - |rest|..]
  }

  lemma SuffixTransitive<T>(a: seq<T>, b: seq<T>, c: seq<T>)
    requires IsSuffix(a, b) && IsSuffix(b, c)
    ensures IsSuffix(a, c)
  {
  }

  // ---------------------------------------------------------------- validators

  function AllMatch(s: string, onlyDigits: bool): bool
  {
    s == [] || ((if onlyDigits then IsDigit(s[0]) else IsAsciiLetter(s[0])) && AllMatch(s[1..], onlyDigits))
  }

  /**
   * containsOnlyDigitsOrLetters: false for an empty string; otherwise whether every
   * char is in [0-9] (onlyDigits) or in [a-zA-Z] (not onlyDigits).
   */
  function ContainsOnlyDigitsOrLetters(s: string, onlyDigits: bool): (r: bool)
    ensures r <==> s != [] && forall k :: 0 <= k < |s| ==> (if onlyDigits then IsDigit(s[k]) else IsAsciiLetter(s[k]))
  {
    AllMatchIff(s, onlyDigits);
    s != [] && AllMatch(s, onlyDigits)
  }

  lemma {:induction false} AllMatchIff(s: string, onlyDigits: bool)
    ensures AllMatch(s, onlyDigits) <==> forall k :: 0 <= k < |s| ==> (if onlyDigits then IsDigit(s[k]) else IsAsciiLetter(s[k]))
  {
    if s != [] {
      AllMatchIff(s[1..], onlyDigits);
      assert forall k :: 1 <= k < |s| ==> s[k] == s[1..][k - 1];
    }
  }

  /** setName: the trimmed line, when it is non-empty and made of ASCII letters only. */
  function ParseName(line: string): (r: Option<string>)
    ensures r.Some? <==> Trim(line) != [] && forall k :: 0 <= k < |Trim(line)| ==> IsAsciiLetter(Trim(line)[k])
    ensures r.Some? ==> r.value == Trim(line)
  {
    var name := Trim(line);
    if name == "" then None
    else if !ContainsOnlyDigitsOrLetters(name, false) then None
    else Some(name)
  }

  /** setHeight: Long.parseLong of the line as typed (not trimmed), then 0 < height <= 400. */
  function ParseHeight(line: string): (r: Option<int>)
    ensures r.Some? <==> ParseLong(line).Some? && 1 <= ParseLong(line).value <= 400
    ensures r.Some? ==> r.value == ParseLong(line).value
  {
    match ParseLong(line)
    case None => None
    case Some(height) => if height <= 0 || height > 400 then None else Some(height)
  }

  /** A height typed with a leading or trailing blank is refused, since the line is not trimmed. */
  lemma HeightIsNotTrimmed(line: string)
    requires line != [] && (line[0] == ' ' || line[|line| - 1] == ' ')
    ensures ParseHeight(line) == None
  {
  }

  /** setPassportID: the trimmed line, when it is exactly six decimal digits. */
  function ParsePassport(line: string): (r: Option<string>)
    ensures r.Some? <==> |Trim(line)| == 6 && AllDigits(Trim(line))
    ensures r.Some? ==> r.value == Trim(line)
  {
    var id := Trim(line);
    if id == [] then None
    else if !AllDigits(id) || |id| != 6 then None
    else Some(id)
  }

  /** setBirthday: the trimmed line as yyyy-MM-dd, refused when it lies after today. */
  function ParseBirthday(today: Date, line: string): (r: Option<Date>)
    ensures r.Some? ==> ValidDate(r.value) && !r.value.IsAfter(today)
    ensures r.Some? <==> ParseLocalDate(Trim(line)).Some? && !ParseLocalDate(Trim(line)).value.IsAfter(today)
  {
    var text := Trim(line);
    if text == [] then None
    else match ParseLocalDate(text)
      case None => None
      case Some(bd) => if bd.IsAfter(today) then None else Some(bd)
  }

  function BirthdayParser(today: Date): string -> Option<Date>
  {
    line => ParseBirthday(today, line)
  }

  /** setCoodrinateX and setCoodrinateY: Integer.parseInt of the trimmed, non-empty line. */
  function ParseInteger(line: string): (r: Option<int>)
    ensures r.Some? ==> IsInt(r.value) && Trim(line) != []
    ensures r == ParseInt(Trim(line))
  {
    var text := Trim(line);
    if text == "" then None else ParseInt(text)
  }

  /**
   * setSalary: the trimmed line; empty or not positive is refused, while a line that
   * is not a number throws the NumberFormatException the reader does not catch.
   */
  function SalaryConversion(line: string): (c: Conversion<real>)
    ensures c.Converted? <==> ParseDecimal(Trim(line)).Some? && ParseDecimal(Trim(line)).value > 0.0
    ensures c.Converted? ==> c.value == ParseDecimal(Trim(line)).value && c.value > 0.0
    ensures c.Thrown? <==> Trim(line) != [] && ParseDecimal(Trim(line)).None?
  {
    var text := Trim(line);
    if text == "" then Refused
    else match ParseDecimal(text)
      case None => Thrown
      case Some(salary) => if salary <= 0.0 then Refused else Converted(salary)
  }

  /** Upper-casing leaves a string without lower-case ASCII letters unchanged. */
  lemma {:induction false} UpperCaseFixed(s: string)
    requires forall k :: 0 <= k < |s| ==> !('a' <= s[k] <= 'z')
    ensures ToUpperCase(s) == s
  {
    if s != [] {
      UpperCaseFixed(s[1..]);
      assert s == [s[0]] + s[1..];
    }
  }

  /** choosePosition: Position.valueOf of the upper-cased trimmed line. */
  function ParsePosition(line: string): (r: Option<Position>)
    ensures r.Some? ==> EqualsIgnoreCase(Trim(line), r.value.Name())
    ensures r.None? ==> forall p: Position :: !EqualsIgnoreCase(Trim(line), p.Name())
  {
    forall p: Position ensures ToUpperCase(p.Name()) == p.Name() {
      PositionNameUpper(p);
    }
    PositionValueOf(ToUpperCase(Trim(line)))
  }

  lemma PositionNameUpper(p: Position)
    ensures ToUpperCase(p.Name()) == p.Name()
  {
    UpperCaseFixed(p.Name());
  }

  /** chooseStatus: Status.valueOf of the upper-cased trimmed line. */
  function ParseStatus(line: string): (r: Option<Status>)
    ensures r.Some? ==> EqualsIgnoreCase(Trim(line), r.value.Name())
    ensures r.None? ==> forall s: Status :: !EqualsIgnoreCase(Trim(line), s.Name())
  {
    forall s: Status ensures ToUpperCase(s.Name()) == s.Name() {
      StatusNameUpper(s);
    }
    StatusValueOf(ToUpperCase(Trim(line)))
  }

  lemma StatusNameUpper(s: Status)
    ensures ToUpperCase(s.Name()) == s.Name()
  {
    UpperCaseFixed(s.Name());
  }

  /** A trimmed, non-empty line; setLocation refuses an empty one before converting it. */
  function NonEmpty(line: string): (r: Option<string>)
    ensures r.Some? <==> Trim(line) != []
    ensures r.Some? ==> r.value == Trim(line)
  {
    var text := Trim(line);
    if text == "" then None else Some(text)
  }

  // ---------------------------------------------------------------- reader specifications

  /**
   * A reader that takes one line per try: in script mode the first line decides
   * (InputException when it is bad, or when there is none); interactively refused
   * lines are skipped until a line converts, a line throws what the reader does not
   * catch, or the input ends.
   */
  function LineReader<T>(interactive: bool, lines: seq<string>, convert: string -> Conversion<T>): (r: (Read<T>, seq<string>))
    ensures IsSuffix(r.1, lines)
    ensures !interactive ==> !r.0.Escaped? && |lines| - |r.1| <= 1
    decreases |lines|
  {
    if lines == [] then (if interactive then Escaped(NoSuchElement) else Invalid, [])
    else match convert(lines[0])
      case Converted(v) => (Got(v), lines[1..])
      case Refused => if interactive then LineReader(interactive, lines[1..], convert) else (Invalid, lines[1..])
      case Thrown => (if interactive then Escaped(NumberFormat) else Invalid, lines[1..])
  }

  /** In script mode a reader consumes one line and succeeds iff that line converts. */
  lemma ScriptReaderOneLine<T>(lines: seq<string>, convert: string -> Conversion<T>)
    requires lines != []
    ensures LineReader(false, lines, convert).1 == lines[1..]
    ensures LineReader(false, lines, convert).0.Got? <==> convert(lines[0]).Converted?
  {
  }

  /** The index of the first line a reader does not refuse, or |lines| when it refuses them all. */
  function FirstDecisive<T>(lines: seq<string>, convert: string -> Conversion<T>): (k: nat)
    ensures k <= |lines|
    ensures forall j :: 0 <= j < k ==> convert(lines[j]).Refused?
    ensures k < |lines| ==> !convert(lines[k]).Refused?
  {
    if lines == [] || !convert(lines[0]).Refused? then 0
    else 1 + FirstDecisive(lines[1..], convert)
  }

  /**
   * Interactively a reader never reports InputException: it stops at the first line
   * it does not refuse, returning that line's value or letting its exception out,
   * and leaves the lines after it unread; with no such line the input runs out.
   */
  lemma {:induction false} InteractiveReaderStopsAtFirstDecisive<T>(lines: seq<string>, convert: string -> Conversion<T>)
    ensures var k := FirstDecisive(lines, convert);
      k == |lines| ==> LineReader(true, lines, convert) == (Escaped(NoSuchElement), [])
    ensures var k := FirstDecisive(lines, convert);
      k < |lines| ==> (
        var r := LineReader(true, lines, convert);
        r.1 == lines[k + 1..] &&
        (convert(lines[k]).Converted? ==> r.0 == Got(convert(lines[k]).value)) &&
        (convert(lines[k]).Thrown? ==> r.0 == Escaped(NumberFormat)))
    decreases |lines|
  {
    if lines != [] && convert(lines[0]).Refused? {
      InteractiveReaderStopsAtFirstDecisive(lines[1..], convert);
      var k := FirstDecisive(lines[1..], convert);
      if k < |lines[1..]| {
        assert lines[1..][k] == lines[k + 1];
        assert lines[1..][k + 1..] == lines[k + 2..];
      }
    }
  }

  /** What setCoordinates reads: x, then y. */
  function CoordinatesReader(interactive: bool, lines: seq<string>): (r: (Read<Coordinates>, seq<string>))
    ensures IsSuffix(r.1, lines)
    ensures !interactive ==> !r.0.Escaped?
  {
    var x := LineReader(interactive, lines, Caught(ParseInteger));
    if !x.0.Got? then (x.0.Fail(), x.1)
    else
      var y := LineReader(interactive, x.1, Caught(ParseInteger));
      if !y.0.Got? then (y.0.Fail(), y.1)
      else (Got(Coordinates(Some(x.0.value), y.0.value)), y.1)
  }

  /**
   * One `nextLine()` inside setLocation's `try`: Escaped when no line is left,
   * Invalid when the line is refused (empty, or not a number).
   */
  function Take<T>(lines: seq<string>, parse: string -> Option<T>): (r: (Read<T>, seq<string>))
    ensures lines == [] ==> r == (Escaped(NoSuchElement), [])
    ensures lines != [] ==> r.1 == lines[1..] && (r.0.Got? || r.0.Invalid?)
    ensures lines != [] ==> (r.0.Got? <==> parse(lines[0]).Some?)
    ensures r.0.Got? ==> parse(lines[0]) == Some(r.0.value)
  {
    if lines == [] then (Escaped(NoSuchElement), [])
    else match parse(lines[0])
      case None => (Invalid, lines[1..])
      case Some(v) => (Got(v), lines[1..])
  }

  /** The x line: trimmed, non-empty, Float.parseFloat. */
  function LocationX(line: string): (r: Option<real>)
    ensures r.Some? ==> Trim(line) != [] && r == ParseDecimal(Trim(line))
  {
    match NonEmpty(line)
    case None => None
    case Some(text) => ParseDecimal(text)
  }

  /** The y line: trimmed, non-empty, Long.parseLong. */
  function LocationY(line: string): (r: Option<int>)
    ensures r.Some? ==> Trim(line) != [] && r == ParseLong(Trim(line))
  {
    match NonEmpty(line)
    case None => None
    case Some(text) => ParseLong(text)
  }

  /** The z line: trimmed, non-empty, Integer.parseInt. */
  function LocationZ(line: string): (r: Option<int>)
    ensures r.Some? ==> Trim(line) != [] && r == ParseInt(Trim(line))
  {
    match NonEmpty(line)
    case None => None
    case Some(text) => ParseInt(text)
  }

  /**
   * One pass of setLocation's loop: x (float), y (long), z (int) and the name, one
   * line each, stopping at the first line that is missing, empty or does not convert.
   */
  function LocationAttempt(lines: seq<string>): (r: (Read<Location>, seq<string>))
    ensures IsSuffix(r.1, lines)
    ensures r.0.Invalid? ==> |r.1| < |lines|
    ensures r.0.Escaped? ==> r.1 == []
    ensures r.0.Got? ==> |lines| >= 4 && r.1 == lines[4..]
  {
    var x := Take(lines, LocationX);
    if !x.0.Got? then (x.0.Fail(), x.1)
    else LocationAfterX(x.0.value, x.1)
  }

  /** The rest of a pass once x has been read: y, z and the name. */
  function LocationAfterX(x: real, lines: seq<string>): (r: (Read<Location>, seq<string>))
    ensures IsSuffix(r.1, lines)
    ensures r.0.Invalid? ==> |r.1| < |lines|
    ensures r.0.Escaped? ==> r.1 == []
    ensures r.0.Got? ==> |lines| >= 3 && r.1 == lines[3..]
  {
    var y := Take(lines, LocationY);
    if !y.0.Got? then (y.0.Fail(), y.1)
    else
      var z := Take(y.1, LocationZ);
      if !z.0.Got? then (z.0.Fail(), z.1)
      else
        var name := Take(z.1, NonEmpty);
        if !name.0.Got? then (name.0.Fail(), name.1)
        else (Got(Location(x, y.0.value, z.0.value, name.0.value)), name.1)
  }

  /** setLocation: passes repeat interactively; in script mode the first failed pass is InputException. */
  function LocationReader(interactive: bool, lines: seq<string>): (r: (Read<Location>, seq<string>))
    ensures IsSuffix(r.1, lines)
    ensures !interactive ==> !r.0.Escaped?
    decreases |lines|
  {
    var attempt := LocationAttempt(lines);
    if attempt.0.Got? then attempt
    else if attempt.0.Escaped? then (if interactive then attempt.0.Fail() else Invalid, [])
    else if !interactive then attempt
    else
      var r := LocationReader(interactive, attempt.1);
      SuffixTransitive(r.1, attempt.1, lines);
      r
  }

  /** In script mode a failed pass leaves the rest of that pass's lines unread. */
  lemma LocationStopsAtFirstBadLine(lines: seq<string>)
    requires |lines| >= 4 && NonEmpty(lines[0]).None?
    ensures LocationReader(false, lines) == (Invalid, lines[1..])
  {
  }

  /**
   * What setPerson reads: birthday, height, passportID, location. Every exception
   * inside, an escaping end of input included, becomes InputException.
   */
  function PersonReader(interactive: bool, today: Date, lines: seq<string>): (r: (Read<Person>, seq<string>))
    ensures IsSuffix(r.1, lines)
    ensures !r.0.Escaped?
  {
    var birthday := LineReader(interactive, lines, Caught(BirthdayParser(today)));
    if !birthday.0.Got? then (Invalid, birthday.1)
    else
      var height := LineReader(interactive, birthday.1, Caught(ParseHeight));
      if !height.0.Got? then (Invalid, height.1)
      else
        var passport := LineReader(interactive, height.1, Caught(ParsePassport));
        if !passport.0.Got? then (Invalid, passport.1)
        else
          var location := LocationReader(interactive, passport.1);
          if !location.0.Got? then (Invalid, location.1)
          else (Got(Person(Some(birthday.0.value), height.0.value, passport.0.value, location.0.value)), location.1)
  }

  /**
   * The arguments of every `new Worker(...)` built from input, in evaluation order:
   * setName, setCoordinates, setSalary, choosePosition, chooseStatus, setPerson.
   */
  function DraftReader(interactive: bool, today: Date, lines: seq<string>): (r: (Read<Draft>, seq<string>))
    ensures |r.1| <= |lines|
    ensures !interactive ==> !r.0.Escaped?
  {
    var name := LineReader(interactive, lines, Caught(ParseName));
    if !name.0.Got? then (name.0.Fail(), name.1)
    else
      var coordinates := CoordinatesReader(interactive, name.1);
      if !coordinates.0.Got? then (coordinates.0.Fail(), coordinates.1)
      else
        var salary := LineReader(interactive, coordinates.1, SalaryConversion);
        if !salary.0.Got? then (salary.0.Fail(), salary.1)
        else
          var position := LineReader(interactive, salary.1, Caught(ParsePosition));
          if !position.0.Got? then (position.0.Fail(), position.1)
          else
            var status := LineReader(interactive, position.1, Caught(ParseStatus));
            if !status.0.Got? then (status.0.Fail(), status.1)
            else
              var person := PersonReader(interactive, today, status.1);
              if !person.0.Got? then (person.0.Fail(), person.1)
              else (Got(Draft(name.0.value, coordinates.0.value, salary.0.value, position.0.value, status.0.value, person.0.value)), person.1)
  }

  /**
   * Interactively, a salary line that is not a number ends the reading of a worker with
   * the NumberFormatException, leaving the lines after it unread.
   */
  lemma SalaryEscapes(today: Date, lines: seq<string>)
    requires |lines| >= 4 && ParseName(lines[0]).Some?
    requires CoordinatesReader(true, lines[1..]).0.Got? && CoordinatesReader(true, lines[1..]).1 == lines[3..]
    requires SalaryConversion(lines[3]).Thrown?
    ensures DraftReader(true, today, lines) == (Escaped(NumberFormat), lines[4..])
  {
    var name := LineReader(true, lines, Caught(ParseName));
    assert name == (Got(ParseName(lines[0]).value), lines[1..]);
    var salary := LineReader(true, lines[3..], SalaryConversion);
    assert salary == (Escaped(NumberFormat), lines[4..]);
  }

  /** In script mode a successful one-line reader took exactly the first line. */
  lemma {:induction false} ScriptLineGot<T>(lines: seq<string>, convert: string -> Conversion<T>)
    requires LineReader(false, lines, convert).0.Got?
    ensures lines != [] && LineReader(false, lines, convert).1 == lines[1..]
    ensures convert(lines[0]) == Converted(LineReader(false, lines, convert).0.value)
  {
  }

  /** In script mode a successful setLocation took exactly four lines. */
  lemma {:induction false} ScriptLocationGot(lines: seq<string>)
    requires LocationReader(false, lines).0.Got?
    ensures |lines| >= 4 && LocationReader(false, lines).1 == lines[4..]
  {
    var attempt := LocationAttempt(lines);
    assert attempt.0.Got?;
    assert LocationReader(false, lines) == attempt;
  }

  /** In script mode successful coordinates took exactly two lines. */
  lemma {:induction false} ScriptCoordinatesGot(lines: seq<string>)
    requires CoordinatesReader(false, lines).0.Got?
    ensures |lines| >= 2 && CoordinatesReader(false, lines).1 == lines[2..]
  {
    var x := LineReader(false, lines, Caught(ParseInteger));
    ScriptLineGot(lines, Caught(ParseInteger));
    ScriptLineGot(x.1, Caught(ParseInteger));
  }

  /** In script mode a successful person took exactly seven lines. */
  lemma {:induction false} ScriptPersonGot(today: Date, lines: seq<string>)
    requires PersonReader(false, today, lines).0.Got?
    ensures |lines| >= 7 && PersonReader(false, today, lines).1 == lines[7..]
  {
    var birthday := LineReader(false, lines, Caught(BirthdayParser(today)));
    ScriptLineGot(lines, Caught(BirthdayParser(today)));
    var height := LineReader(false, birthday.1, Caught(ParseHeight));
    ScriptLineGot(birthday.1, Caught(ParseHeight));
    var passport := LineReader(false, height.1, Caught(ParsePassport));
    ScriptLineGot(height.1, Caught(ParsePassport));
    ScriptLocationGot(passport.1);
    assert passport.1 == lines[3..];
  }

  /** In script mode a drafted worker takes exactly 13 lines of the script. */
  lemma {:induction false} ScriptDraftLines(today: Date, lines: seq<string>)
    requires DraftReader(false, today, lines).0.Got?
    ensures |lines| >= 13 && DraftReader(false, today, lines).1 == lines[13..]
  {
    var name := LineReader(false, lines, Caught(ParseName));
    ScriptLineGot(lines, Caught(ParseName));
    var coordinates := CoordinatesReader(false, name.1);
    ScriptCoordinatesGot(name.1);
    assert coordinates.1 == lines[3..];
    var salary := LineReader(false, coordinates.1, SalaryConversion);
    ScriptLineGot(coordinates.1, SalaryConversion);
    assert salary.1 == lines[4..];
    var position := LineReader(false, salary.1, Caught(ParsePosition));
    ScriptLineGot(salary.1, Caught(ParsePosition));
    assert position.1 == lines[5..];
    var status := LineReader(false, position.1, Caught(ParseStatus));
    ScriptLineGot(position.1, Caught(ParseStatus));
    assert status.1 == lines[6..];
    ScriptPersonGot(today, status.1);
  }

  /** confirm: in script mode true without reading; interactively whether the trimmed line is "y". */
  function ConfirmReader(interactive: bool, lines: seq<string>): (r: (Read<bool>, seq<string>))
    ensures !interactive ==> r == (Got(true), lines)
    ensures interactive && lines != [] ==> r == (Got(Trim(lines[0]) == "y"), lines[1..])
    ensures interactive && lines == [] ==> r == (Escaped(NoSuchElement), [])
  {
    if !interactive then (Got(true), lines)
    else if lines == [] then (Escaped(NoSuchElement), [])
    else (Got(Trim(lines[0]) == "y"), lines[1..])
  }

  // ---------------------------------------------------------------- the object

  class CommunicationControl {
    /** The Scanner the readers take lines from. */
    var source: Stream
    /** True while the user types commands; false while a script runs. */
    var loop: bool
    /** The static flag a reader raises on success so that its `finally` does not throw. */
    var flagForScr: bool
    /** The Scanner over System.in that `changeScanner(System.in)` returns to. */
    const systemIn: Stream
    /** LocalDate.now(), fixed for the run. */
    const today: Date

    constructor(scanner: Stream, today: Date)
      ensures source == scanner && systemIn == scanner && this.today == today
      ensures loop && !flagForScr
    {
      source := scanner;
      systemIn := scanner;
      this.today := today;
      loop := true;
      flagForScr := false;
    }

    /** setUnsetLoop: flips `loop`; two calls restore it. */
    method SetUnsetLoop()
      modifies this`loop
      ensures loop == !old(loop)
    {
      loop := !loop;
    }

    /** changeScanner: later reads come from the given input. */
    method ChangeScanner(input: Stream)
      modifies this`source
      ensures source == input
    {
      source := input;
    }

    /**
     * The `while (true) { try … finally … }` shape shared by the one-line readers:
     * read a line, convert it, and on failure either throw (script mode) or retry.
     */
    method ReadLine<T>(convert: string -> Conversion<T>) returns (r: Read<T>)
      requires !flagForScr
      modifies this`flagForScr, source
      ensures !flagForScr && source == old(source)
      ensures (r, source.lines) == LineReader(loop, old(source.lines), convert)
    {
      while true
        invariant !flagForScr && source == old(source)
        invariant LineReader(loop, old(source.lines), convert) == LineReader(loop, source.lines, convert)
        decreases |source.lines|
      {
        var line := source.NextLine();
        var value := if line.Some? then convert(line.value) else Thrown;
        if value.Converted? {
          flagForScr := true;
        }
        // finally: runs after success, after a caught exception and after an escaping one
        if !loop && !flagForScr {
          return Invalid;
        }
        if flagForScr {
          flagForScr := false;
          return Got(value.value);
        }
        if line.None? {
          return Escaped(NoSuchElement);
        }
        if value.Thrown? {
          return Escaped(NumberFormat);
        }
      }
    }

    method SetName() returns (r: Read<string>)
      requires !flagForScr
      modifies this`flagForScr, source
      ensures !flagForScr && source == old(source)
      ensures (r, source.lines) == LineReader(loop, old(source.lines), Caught(ParseName))
    {
      r := ReadLine(Caught(ParseName));
    }

    method SetHeight() returns (r: Read<int>)
      requires !flagForScr
      modifies this`flagForScr, source
      ensures !flagForScr && source == old(source)
      ensures (r, source.lines) == LineReader(loop, old(source.lines), Caught(ParseHeight))
    {
      r := ReadLine(Caught(ParseHeight));
    }

    method SetPassportID() returns (r: Read<string>)
      requires !flagForScr
      modifies this`flagForScr, source
      ensures !flagForScr && source == old(source)
      ensures (r, source.lines) == LineReader(loop, old(source.lines), Caught(ParsePassport))
    {
      r := ReadLine(Caught(ParsePassport));
    }

    method SetBirthday() returns (r: Read<Date>)
      requires !flagForScr
      modifies this`flagForScr, source
      ensures !flagForScr && source == old(source)
      ensures (r, source.lines) == LineReader(loop, old(source.lines), Caught(BirthdayParser(today)))
    {
      r := ReadLine(Caught(BirthdayParser(today)));
    }

    method SetCoodrinateX() returns (r: Read<int>)
      requires !flagForScr
      modifies this`flagForScr, source
      ensures !flagForScr && source == old(source)
      ensures (r, source.lines) == LineReader(loop, old(source.lines), Caught(ParseInteger))
    {
      r := ReadLine(Caught(ParseInteger));
    }

    method SetCoodrinateY() returns (r: Read<int>)
      requires !flagForScr
      modifies this`flagForScr, source
      ensures !flagForScr && source == old(source)
      ensures (r, source.lines) == LineReader(loop, old(source.lines), Caught(ParseInteger))
    {
      r := ReadLine(Caught(ParseInteger));
    }

    method SetSalary() returns (r: Read<real>)
      requires !flagForScr
      modifies this`flagForScr, source
      ensures !flagForScr && source == old(source)
      ensures (r, source.lines) == LineReader(loop, old(source.lines), SalaryConversion)
    {
      r := ReadLine(SalaryConversion);
    }

    method ChoosePosition() returns (r: Read<Position>)
      requires !flagForScr
      modifies this`flagForScr, source
      ensures !flagForScr && source == old(source)
      ensures (r, source.lines) == LineReader(loop, old(source.lines), Caught(ParsePosition))
    {
      r := ReadLine(Caught(ParsePosition));
    }

    method ChooseStatus() returns (r: Read<Status>)
      requires !flagForScr
      modifies this`flagForScr, source
      ensures !flagForScr && source == old(source)
      ensures (r, source.lines) == LineReader(loop, old(source.lines), Caught(ParseStatus))
    {
      r := ReadLine(Caught(ParseStatus));
    }

    method SetCoordinates() returns (r: Read<Coordinates>)
      requires !flagForScr
      modifies this`flagForScr, source
      ensures !flagForScr && source == old(source)
      ensures (r, source.lines) == CoordinatesReader(loop, old(source.lines))
    {
      var x := SetCoodrinateX();
      if !x.Got? {
        return x.Fail();
      }
      var y := SetCoodrinateY();
      if !y.Got? {
        return y.Fail();
      }
      r := Got(Coordinates(Some(x.value), y.value));
    }

    method SetLocation() returns (r: Read<Location>)
      requires !flagForScr
      modifies this`flagForScr, source
      ensures !flagForScr && source == old(source)
      ensures (r, source.lines) == LocationReader(loop, old(source.lines))
    {
      while true
        invariant !flagForScr && source == old(source)
        invariant LocationReader(loop, old(source.lines)) == LocationReader(loop, source.lines)
        decreases |source.lines|
      {
        var stop;
        stop, r := LocationRound();
        if stop {
          return;
        }
      }
    }

    /** One turn of setLocation's loop; `stop` when the loop returns `r`. */
    method LocationRound() returns (stop: bool, r: Read<Location>)
      requires !flagForScr
      modifies this`flagForScr, source
      ensures !flagForScr && source == old(source)
      ensures stop ==> (r, source.lines) == LocationReader(loop, old(source.lines))
      ensures !stop ==> |source.lines| < |old(source.lines)| && LocationReader(loop, source.lines) == LocationReader(loop, old(source.lines))
    {
      var attempt := TryLocation();
      if attempt.Got? {
        flagForScr := true;
      }
      // finally: the attempt ended in success, EmptyInputException,
      // NumberFormatException or an escaping NoSuchElementException
      if !loop && !flagForScr {
        return true, Invalid;
      }
      if attempt.Escaped? {
        return true, attempt.Fail();
      }
      if flagForScr {
        flagForScr := false;
        return true, attempt;
      }
      stop, r := false, attempt;
    }

    /** The body of setLocation's `try`: up to four lines, x, y, z and the name. */
    method TryLocation() returns (attempt: Read<Location>)
      modifies source
      ensures (attempt, source.lines) == LocationAttempt(old(source.lines))
    {
      var x := TakeLine(LocationX);
      if !x.Got? { return x.Fail(); }
      var y := TakeLine(LocationY);
      if !y.Got? { return y.Fail(); }
      var z := TakeLine(LocationZ);
      if !z.Got? { return z.Fail(); }
      var name := TakeLine(NonEmpty);
      if !name.Got? { return name.Fail(); }
      attempt := Got(Location(x.value, y.value, z.value, name.value));
    }

    /** `scanner.nextLine()` followed by a conversion that may throw. */
    method TakeLine<T>(parse: string -> Option<T>) returns (r: Read<T>)
      modifies source
      ensures (r, source.lines) == Take(old(source.lines), parse)
    {
      var line := source.NextLine();
      if line.None? {
        return Escaped(NoSuchElement);
      }
      var value := parse(line.value);
      r := if value.Some? then Got(value.value) else Invalid;
    }

    method SetPerson() returns (r: Read<Person>)
      requires !flagForScr
      modifies this`flagForScr, source
      ensures !flagForScr && source == old(source)
      ensures (r, source.lines) == PersonReader(loop, today, old(source.lines))
    {
      var birthday := SetBirthday();
      if !birthday.Got? { return Invalid; }
      var height := SetHeight();
      if !height.Got? { return Invalid; }
      var passport := SetPassportID();
      if !passport.Got? { return Invalid; }
      var location := SetLocation();
      if !location.Got? { return Invalid; }
      r := Got(Person(Some(birthday.value), height.value, passport.value, location.value));
    }

    /**
     * The argument list `setName(), setCoordinates(), setSalary(), choosePosition(),
     * chooseStatus(), setPerson()` that every worker built from input evaluates.
     */
    method ReadDraft() returns (r: Read<Draft>)
      requires !flagForScr
      modifies this`flagForScr, source
      ensures !flagForScr && source == old(source)
      ensures (r, source.lines) == DraftReader(loop, today, old(source.lines))
    {
      var name := SetName();
      if !name.Got? { return name.Fail(); }
      var coordinates := SetCoordinates();
      if !coordinates.Got? { return coordinates.Fail(); }
      var salary := SetSalary();
      if !salary.Got? { return salary.Fail(); }
      var position := ChoosePosition();
      if !position.Got? { return position.Fail(); }
      var status := ChooseStatus();
      if !status.Got? { return status.Fail(); }
      var person := SetPerson();
      if !person.Got? { return person.Fail(); }
      r := Got(Draft(name.value, coordinates.value, salary.value, position.value, status.value, person.value));
    }

    method Confirm() returns (r: Read<bool>)
      modifies source
      ensures (r, source.lines) == ConfirmReader(loop, old(source.lines))
    {
      if loop {
        var line := source.NextLine();
        if line.None? {
          return Escaped(NoSuchElement);
        }
        r := Got(Trim(line.value) == "y");
      } else {
        r := Got(true);
      }
    }

    /** setEnotherInfo: the next line trimmed; None is NoSuchElementException, which nothing here catches. */
    method SetEnotherInfo() returns (line: Option<string>)
      modifies source
      ensures old(source.lines) == [] ==> line == None && source.lines == []
      ensures old(source.lines) != [] ==> line == Some(Trim(old(source.lines)[0])) && source.lines == old(source.lines)[1..]
    {
      line := source.NextLine();
      if line.Some? {
        line := Some(Trim(line.value));
      }
    }
  }
}

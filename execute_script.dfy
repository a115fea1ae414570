/**
 * ExecuteScript: a script file is split into a command file and a data file, then the
 * command lines are replayed with the readers switched to script mode and bound to the
 * data file; afterwards the mode and the reader are restored and both files deleted.
 *
 * The file system is a map from file name to the file's lines.
 */
module Script {
  import opened JavaLang
  import opened Data
  import opened Commands
  import opened Input
  import opened Store
  import opened Registry
  import opened Handlers

  const DataFileName: string := "outputData.txt"
  const CommandsFileName: string := "outputCommands.txt"

  /** The files the program reads and writes, each as its lines. */
  class FileSystem {
    var files: map<string, seq<string>>

    constructor(files: map<string, seq<string>>)
      ensures this.files == files
    {
      this.files := files;
    }

    /** File.delete: the file is gone, whether or not it was there. */
    method Delete(name: string)
      modifies this
      ensures files == old(files) - {name}
    {
      files := files - {name};
    }
  }

  // ---------------------------------------------------------------- the split pass

  /** `args = (line.trim() + " ").split(" ", 2)`: always two parts. */
  function ScriptArgs(line: string): (args: seq<string>)
    ensures |args| == 2 && ' ' !in args[0]
    ensures Trim(line) + " " == args[0] + " " + args[1]
  {
    var padded := Trim(line) + " ";
    assert padded[|padded| - 1] == ' ';
    SplitLimit2(padded)
  }

  /** A line is a command line when `args[0].trim()` is exactly a key (case matters). */
  predicate IsCommandLine(keys: set<string>, line: string)
  {
    Trim(ScriptArgs(line)[0]) in keys
  }

  /** What is written for a command line: `args[0] + " " + args[1]`, the trimmed line and a space. */
  function CommandEntry(line: string): (entry: string)
    ensures entry == Trim(line) + " "
  {
    var args := ScriptArgs(line);
    args[0] + " " + args[1]
  }

  /** The elements of `xs` that `keep` accepts, in their order. */
  function Selected<T>(keep: T -> bool, xs: seq<T>): (r: seq<T>)
    ensures |r| <= |xs|
  {
    if xs == [] then []
    else Selected(keep, xs[..|xs| - 1]) + (if keep(xs[|xs| - 1]) then [xs[|xs| - 1]] else [])
  }

  /** `f` applied to every element of `xs`. */
  function Rewritten<T, U>(f: T -> U, xs: seq<T>): (r: seq<U>)
    ensures |r| == |xs| && forall i :: 0 <= i < |xs| ==> r[i] == f(xs[i])
  {
    seq(|xs|, i requires 0 <= i < |xs| => f(xs[i]))
  }

  lemma {:induction false} SelectedSizes<T>(keep: T -> bool, drop: T -> bool, xs: seq<T>)
    requires forall x :: drop(x) == !keep(x)
    ensures |Selected(keep, xs)| + |Selected(drop, xs)| == |xs|
  {
    if xs != [] {
      SelectedSizes(keep, drop, xs[..|xs| - 1]);
    }
  }

  lemma {:induction false} SelectedConcat<T>(keep: T -> bool, a: seq<T>, b: seq<T>)
    ensures Selected(keep, a + b) == Selected(keep, a) + Selected(keep, b)
    decreases |b|
  {
    if b == [] {
      assert a + b == a;
    } else {
      var init := b[..|b| - 1];
      SelectedConcat(keep, a, init);
      assert (a + b)[..|a + b| - 1] == a + init;
      assert (a + b)[|a + b| - 1] == b[|b| - 1];
    }
  }

  lemma {:induction false} SelectedMembers<T>(keep: T -> bool, xs: seq<T>)
    ensures forall x :: x in Selected(keep, xs) <==> x in xs && keep(x)
  {
    if xs != [] {
      var init := xs[..|xs| - 1];
      SelectedMembers(keep, init);
      assert xs == init + [xs[|xs| - 1]];
    }
  }

  lemma RewrittenConcat<T, U>(f: T -> U, a: seq<T>, b: seq<T>)
    ensures Rewritten(f, a + b) == Rewritten(f, a) + Rewritten(f, b)
  {
  }

  /** The test the split pass applies to each line. */
  function CommandTest(keys: set<string>): string -> bool
  {
    line => IsCommandLine(keys, line)
  }

  function DataTest(keys: set<string>): string -> bool
  {
    line => !IsCommandLine(keys, line)
  }

  /** The command file's lines after the split pass over `lines`. */
  function CommandLines(keys: set<string>, lines: seq<string>): seq<string>
  {
    Rewritten(CommandEntry, Selected(CommandTest(keys), lines))
  }

  /** The data file's lines after the split pass over `lines`: the other lines, unchanged. */
  function DataLines(keys: set<string>, lines: seq<string>): seq<string>
  {
    Selected(DataTest(keys), lines)
  }

  /** Every line lands in exactly one of the two files. */
  lemma SplitSizes(keys: set<string>, lines: seq<string>)
    ensures |CommandLines(keys, lines)| + |DataLines(keys, lines)| == |lines|
  {
    SelectedSizes(CommandTest(keys), DataTest(keys), lines);
  }

  /** The split of a concatenation is the concatenation of the splits: each file keeps the script's order. */
  lemma SplitConcat(keys: set<string>, a: seq<string>, b: seq<string>)
    ensures CommandLines(keys, a + b) == CommandLines(keys, a) + CommandLines(keys, b)
    ensures DataLines(keys, a + b) == DataLines(keys, a) + DataLines(keys, b)
  {
    SelectedConcat(CommandTest(keys), a, b);
    SelectedConcat(DataTest(keys), a, b);
    RewrittenConcat(CommandEntry, Selected(CommandTest(keys), a), Selected(CommandTest(keys), b));
  }

  /**
   * A command line's entry is in the command file and a data line is in the data file;
   * conversely the data file holds only lines that are not command lines.
   */
  lemma SplitMembers(keys: set<string>, lines: seq<string>)
    ensures forall line :: line in lines && IsCommandLine(keys, line) ==> CommandEntry(line) in CommandLines(keys, lines)
    ensures forall line :: line in DataLines(keys, lines) <==> line in lines && !IsCommandLine(keys, line)
  {
    SelectedMembers(CommandTest(keys), lines);
    SelectedMembers(DataTest(keys), lines);
    var selected := Selected(CommandTest(keys), lines);
    forall line | line in lines && IsCommandLine(keys, line) ensures CommandEntry(line) in CommandLines(keys, lines) {
      assert line in selected;
      var i :| 0 <= i < |selected| && selected[i] == line;
      assert CommandLines(keys, lines)[i] == CommandEntry(line);
    }
  }

  /** Appending one line to the script appends it to exactly one of the files. */
  lemma SplitSnoc(keys: set<string>, lines: seq<string>, line: string)
    ensures CommandLines(keys, lines + [line]) ==
      CommandLines(keys, lines) + (if IsCommandLine(keys, line) then [CommandEntry(line)] else [])
    ensures DataLines(keys, lines + [line]) == DataLines(keys, lines) + (if IsCommandLine(keys, line) then [] else [line])
  {
    SelectedRewrittenSnoc(CommandTest(keys), CommandEntry, lines, line);
    SelectedSnoc(DataTest(keys), lines, line);
  }

  lemma SelectedRewrittenSnoc<T, U>(keep: T -> bool, f: T -> U, xs: seq<T>, x: T)
    ensures Rewritten(f, Selected(keep, xs + [x])) == Rewritten(f, Selected(keep, xs)) + (if keep(x) then [f(x)] else [])
  {
    SelectedSnoc(keep, xs, x);
    RewrittenConcat(f, Selected(keep, xs), if keep(x) then [x] else []);
  }

  lemma SelectedSnoc<T>(keep: T -> bool, xs: seq<T>, x: T)
    ensures Selected(keep, xs + [x]) == Selected(keep, xs) + (if keep(x) then [x] else [])
  {
    assert (xs + [x])[..|xs|] == xs;
  }

  /**
   * The split is case-sensitive but the replay is not: with the standard registry, the
   * line "CLEAR" is data, while the command key it would match ignoring case is "clear".
   */
  lemma SplitIsCaseSensitive(m: map<string, Command>)
    requires KeysDistinctIgnoringCase(m) && "clear" in m
    ensures DataLines(m.Keys, ["CLEAR"]) == ["CLEAR"]
    ensures MatchingKey(m, "CLEAR") == Some("clear")
  {
    ClearMatchesUpper();
    MatchingKeyIs(m, "CLEAR", "clear");
    UpperLineIsData(m.Keys);
  }

  lemma ClearMatchesUpper()
    ensures EqualsIgnoreCase("clear", "CLEAR") && EqualsIgnoreCase("CLEAR", "clear")
  {
    EqualsIgnoreCaseCharwise("clear", "CLEAR");
  }

  lemma UpperLineIsData(keys: set<string>)
    requires "CLEAR" !in keys
    ensures DataLines(keys, ["CLEAR"]) == ["CLEAR"]
  {
    UpperWordIsData(keys);
    SelectedSnoc(DataTest(keys), [], "CLEAR");
    assert [] + ["CLEAR"] == ["CLEAR"];
  }

  /** The first word of the line "CLEAR" is "CLEAR" itself. */
  lemma UpperWordArgs()
    ensures ScriptArgs("CLEAR")[0] == "CLEAR"
  {
    TrimOfTrimmed("CLEAR");
    var args := ScriptArgs("CLEAR");
    assert args[0] + " " + args[1] == "CLEAR" + " ";
    assert args[0] == ("CLEAR" + " ")[..|args[0]|];
  }

  lemma UpperWordIsData(keys: set<string>)
    requires "CLEAR" !in keys
    ensures !IsCommandLine(keys, "CLEAR")
  {
    UpperWordArgs();
    TrimOfTrimmed("CLEAR");
  }

  /** The files after `fileProcessor(file)`: a missing script changes nothing. */
  function FilesAfterSplit(keys: set<string>, files: map<string, seq<string>>, file: string): map<string, seq<string>>
  {
    if file !in files then files
    else files[DataFileName := DataLines(keys, files[file])][CommandsFileName := CommandLines(keys, files[file])]
  }

  /**
   * `toCommands` and `toData` are the split pass's tests for the keys `keys`, and `entryOf`
   * is what it writes for a command line.
   */
  ghost predicate SplitsAs(keys: set<string>, toCommands: string -> bool, toData: string -> bool, entryOf: string -> string)
  {
    (forall line {:trigger IsCommandLine(keys, line)} :: toCommands(line) == IsCommandLine(keys, line)) &&
    (forall line {:trigger IsCommandLine(keys, line)} :: toData(line) == !IsCommandLine(keys, line)) &&
    (forall line {:trigger CommandEntry(line)} :: entryOf(line) == CommandEntry(line))
  }

  /** The split pass's tests, seen only through SplitsAs. */
  ghost method SplitTests(keys: set<string>) returns (toCommands: string -> bool, toData: string -> bool, entryOf: string -> string)
    ensures SplitsAs(keys, toCommands, toData, entryOf)
    ensures forall start, done ::
      Routed(start, toCommands, toData, entryOf, done) == start[DataFileName := DataLines(keys, done)][CommandsFileName := CommandLines(keys, done)]
  {
    toCommands, toData, entryOf := CommandTest(keys), DataTest(keys), CommandEntry;
  }

  /**
   * The test fileProcessor applies to one line: `args[0].trim()` looked up in the command
   * map, and the text it writes for a command line.
   */
  method ClassifyLine(commands: CommandMap, line: string, ghost toCommands: string -> bool, ghost toData: string -> bool,
                      ghost entryOf: string -> string) returns (isCommand: bool, entry: string)
    requires SplitsAs(commands.entries.Keys, toCommands, toData, entryOf)
    ensures isCommand == toCommands(line) && !isCommand == toData(line)
    ensures entry == entryOf(line)
  {
    var args := ScriptArgs(line);
    isCommand := Trim(args[0]) in commands.entries;
    entry := args[0] + " " + args[1];
    assert isCommand == IsCommandLine(commands.entries.Keys, line);
    assert entry == CommandEntry(line);
  }

  /**
   * The files once a routing pass has handled `done`: the elements `toData` accepts, in
   * order, in the data file, and the entries of those `toCommands` accepts in the command file.
   */
  function Routed<T>(start: map<string, seq<T>>, toCommands: T -> bool, toData: T -> bool, entry: T -> T,
                     done: seq<T>): map<string, seq<T>>
  {
    start[DataFileName := Selected(toData, done)][CommandsFileName := Rewritten(entry, Selected(toCommands, done))]
  }

  /** Routing one more element appends it to the one file that accepts it. */
  lemma RoutedSnoc<T>(start: map<string, seq<T>>, toCommands: T -> bool, toData: T -> bool, entry: T -> T,
                      done: seq<T>, x: T)
    requires toData(x) == !toCommands(x)
    ensures DataFileName in Routed(start, toCommands, toData, entry, done)
    ensures CommandsFileName in Routed(start, toCommands, toData, entry, done)
    ensures Routed(start, toCommands, toData, entry, done + [x]) ==
      var before := Routed(start, toCommands, toData, entry, done);
      if toCommands(x) then before[CommandsFileName := before[CommandsFileName] + [entry(x)]]
      else before[DataFileName := before[DataFileName] + [x]]
  {
    assert DataFileName != CommandsFileName;
    assert (done + [x])[..|done|] == done;
    var data, commands := Selected(toData, done), Selected(toCommands, done);
    RewrittenConcat(entry, commands, if toCommands(x) then [x] else []);
    if toCommands(x) {
      assert Selected(toData, done + [x]) == data;
      assert Rewritten(entry, Selected(toCommands, done + [x])) == Rewritten(entry, commands) + [entry(x)];
    } else {
      assert Selected(toData, done + [x]) == data + [x];
      assert Rewritten(entry, Selected(toCommands, done + [x])) == Rewritten(entry, commands);
    }
  }

  /** RoutedSnoc for the next element of `xs`, with the test's verdict and the entry already known. */
  lemma RoutedStep<T>(start: map<string, seq<T>>, toCommands: T -> bool, toData: T -> bool, entry: T -> T,
                      xs: seq<T>, i: int, isCommand: bool, e: T)
    requires 0 <= i < |xs| && isCommand == toCommands(xs[i]) && !isCommand == toData(xs[i]) && e == entry(xs[i])
    ensures DataFileName in Routed(start, toCommands, toData, entry, xs[..i])
    ensures CommandsFileName in Routed(start, toCommands, toData, entry, xs[..i])
    ensures Routed(start, toCommands, toData, entry, xs[..i + 1]) ==
      var before := Routed(start, toCommands, toData, entry, xs[..i]);
      if isCommand then before[CommandsFileName := before[CommandsFileName] + [e]]
      else before[DataFileName := before[DataFileName] + [xs[i]]]
  {
    assert xs[..i + 1] == xs[..i] + [xs[i]];
    RoutedSnoc(start, toCommands, toData, entry, xs[..i], xs[i]);
  }

  /** The split pass over `done`, as a routing pass. */
  lemma SplitIsRouting(start: map<string, seq<string>>, keys: set<string>, done: seq<string>)
    ensures Routed(start, CommandTest(keys), DataTest(keys), CommandEntry, done) ==
      start[DataFileName := DataLines(keys, done)][CommandsFileName := CommandLines(keys, done)]
  {
  }

  /**
   * fileProcessor: both output files are (re)created empty, then each script line is
   * appended to one of them. A missing script only prints "Файла не найдено".
   */
  method FileProcessor(store: CollectionControl, fs: FileSystem, file: string)
    requires store.bufferOfCommandMap != null
    modifies fs
    ensures fs.files == FilesAfterSplit(store.bufferOfCommandMap.entries.Keys, old(fs.files), file)
  {
    if file !in fs.files {
      return;
    }
    var lines := fs.files[file];
    ghost var keys := store.bufferOfCommandMap.entries.Keys;
    ghost var start := old(fs.files);
    ghost var toCommands, toData, entryOf := SplitTests(keys);
    fs.files := fs.files[DataFileName := []][CommandsFileName := []];
    var i := 0;
    while i < |lines|
      invariant 0 <= i <= |lines|
      invariant fs.files == Routed(start, toCommands, toData, entryOf, lines[..i])
    {
      var line := lines[i];
      var commands := store.SendCommandMap();
      var isCommand, entry := ClassifyLine(commands, line, toCommands, toData, entryOf);
      RoutedStep(start, toCommands, toData, entryOf, lines, i, isCommand, entry);
      if !isCommand {
        fs.files := fs.files[DataFileName := fs.files[DataFileName] + [line]];
      } else {
        fs.files := fs.files[CommandsFileName := fs.files[CommandsFileName] + [entry]];
      }
      i := i + 1;
    }
    assert lines[..i] == lines;
  }

  // ---------------------------------------------------------------- the replay pass

  /** `args = (line.trim() + " ").split(" ")` for a command-file line already trimmed once. */
  function ReplayArgs(line: string): seq<string>
  {
    SplitAll(Trim(Trim(line)) + " ")
  }

  /** The argument passed on: `args[1]` when there are exactly two parts, "" otherwise. */
  function ReplayArgument(args: seq<string>): string
  {
    if |args| == 2 then args[1] else ""
  }

  /** What the replay loop does with one command-file line. */
  datatype Step =
    | Fails                             // a line with no parts: args[0] throws
    | Skips                             // no key matches, or the key is execute_script
    | Runs(kind: Kind, argument: string)

  /**
   * One command-file line: the key equal to `args[0].trim()` ignoring case is executed
   * unless it is execute_script; a line with no parts at all is an exception.
   */
  function ReplayStep(m: map<string, Command>, line: string): (r: Step)
    requires StandardKeys(m)
    ensures r.Runs? ==> r.kind != Kind.ExecuteScript
    ensures r.Fails? <==> ReplayArgs(line) == []
  {
    var args := ReplayArgs(line);
    if args == [] then Fails
    else match MatchingKey(m, Trim(args[0]))
      case None => Skips
      case Some(key) =>
        if EqualsIgnoreCase(key, "execute_script") then Skips
        else
          ScriptKeyIsExecuteScript(m, key);
          Runs(m[key].kind, ReplayArgument(args))
  }

  /** What running a command of a given kind with an argument does to the state. */
  type Effect = (Kind, string, World) -> (Outcome, World)

  /** The commands' effects with the readers in the given mode (execute_script is never run). */
  function Effects(loop: bool, today: Date): Effect
  {
    (kind, argument, s) => if kind == Kind.ExecuteScript then (Done, s) else ExecuteEffect(kind, loop, today, argument, s)
  }

  /** The commands other than execute_script run as Execute runs them. */
  ghost predicate RunsAsExecute(run: Effect, loop: bool, today: Date)
  {
    forall kind, argument, s {:trigger ExecuteEffect(kind, loop, today, argument, s)} ::
      kind != Kind.ExecuteScript ==> run(kind, argument, s) == ExecuteEffect(kind, loop, today, argument, s)
  }

  lemma EffectsRunAsExecute(loop: bool, today: Date)
    ensures RunsAsExecute(Effects(loop, today), loop, today)
  {
  }

  /** The replay's decision for each command-file line. */
  type Decide = string -> Step

  /** The decisions the replay takes with the registry `m`. */
  function Decisions(m: map<string, Command>): Decide
  {
    line => if StandardKeys(m) then ReplayStep(m, line) else Skips
  }

  /** `decide` takes the replay's decisions with the registry `m`. */
  ghost predicate DecidesAs(decide: Decide, m: map<string, Command>)
  {
    StandardKeys(m) && forall line {:trigger ReplayStep(m, line)} :: decide(line) == ReplayStep(m, line)
  }

  lemma DecisionsDecideAs(m: map<string, Command>)
    requires StandardKeys(m)
    ensures DecidesAs(Decisions(m), m)
  {
  }

  /** The effect of one command-file line. */
  function ReplayLine(decide: Decide, run: Effect, line: string, s: World): (r: (Outcome, World))
  {
    match decide(line)
    case Fails => (Aborted, s)
    case Skips => (Done, s)
    case Runs(kind, argument) => run(kind, argument, s)
  }

  /** The replay loop: the first exception stops it (it is caught outside the loop); System.exit ends all. */
  function Replay(decide: Decide, run: Effect, commands: seq<string>, s: World): (r: (Outcome, World))
    decreases |commands|
  {
    if commands == [] then (Done, s)
    else
      var step := ReplayLine(decide, run, commands[0], s);
      if step.0 == Aborted || step.0 == Exited then step
      else Replay(decide, run, commands[1..], step.1)
  }

  /** The replay never runs execute_script, whatever the case of the line. */
  lemma NoNestedScripts(m: map<string, Command>, line: string)
    requires StandardKeys(m)
    requires ReplayArgs(line) != [] && MatchingKey(m, Trim(ReplayArgs(line)[0])).Some?
    requires m[MatchingKey(m, Trim(ReplayArgs(line)[0])).value].kind == Kind.ExecuteScript
    ensures ReplayStep(m, line) == Skips
  {
    ScriptKeyIsExecuteScript(m, MatchingKey(m, Trim(ReplayArgs(line)[0])).value);
  }

  /** A line that names no command is skipped. */
  lemma UnknownLinesSkipped(m: map<string, Command>, run: Effect, commands: seq<string>, s: World)
    requires StandardKeys(m) && commands != []
    requires ReplayArgs(commands[0]) != [] && MatchingKey(m, Trim(ReplayArgs(commands[0])[0])).None?
    ensures Replay(Decisions(m), run, commands, s) == Replay(Decisions(m), run, commands[1..], s)
  {
  }

  /** Splitting a word followed by a space gives the word alone, so the command gets "". */
  lemma OneWord(w: string)
    requires ' ' !in w
    ensures w != "" ==> SplitAll(w + " ") == [w]
    ensures w != "" ==> ReplayArgument(SplitAll(w + " ")) == ""
  {
    var s := w + " ";
    assert s == w + " " + "";
    PiecesAfterWord(w, "");
    assert Pieces("") == [""];
    assert s[|w|] == ' ';
    if w != "" {
      assert DropTrailingEmpty([w, ""]) == DropTrailingEmpty([w]) by {
        assert [w, ""][..1] == [w];
      }
      assert DropTrailingEmpty([w]) == [w];
    }
  }

  /** Two words separated by one space: the second word is the argument. */
  lemma TwoWords(w: string, v: string)
    requires w != "" && v != "" && ' ' !in w && ' ' !in v
    ensures SplitAll(w + " " + v + " ") == [w, v]
    ensures ReplayArgument(SplitAll(w + " " + v + " ")) == v
  {
    var s := w + " " + v + " ";
    TwoWordsPieces(w, v);
    assert s[|w|] == ' ';
    DropLastEmpty(w, v);
  }

  lemma TwoWordsPieces(w: string, v: string)
    requires ' ' !in w && ' ' !in v
    ensures Pieces(w + " " + v + " ") == [w, v, ""]
  {
    var t := v + " ";
    SpaceWordSpace(w, v);
    OneWordPieces(v);
    PiecesAfterWord(w, t);
    assert [w] + [v, ""] == [w, v, ""];
  }

  lemma SpaceWordSpace(w: string, v: string)
    ensures w + " " + v + " " == w + " " + (v + " ")
  {
  }

  lemma DropLastEmpty(w: string, v: string)
    requires v != ""
    ensures DropTrailingEmpty([w, v, ""]) == [w, v]
  {
    assert DropTrailingEmpty([w, v, ""]) == DropTrailingEmpty([w, v]) by {
      assert [w, v, ""][..2] == [w, v];
    }
    assert DropTrailingEmpty([w, v]) == [w, v];
  }

  lemma OneWordPieces(v: string)
    requires ' ' !in v
    ensures Pieces(v + " ") == [v, ""]
  {
    assert v + " " == v + " " + "";
    PiecesAfterWord(v, "");
    assert Pieces("") == [""];
  }

  lemma LeadingSpacePieces(v: string)
    requires ' ' !in v
    ensures Pieces(" " + v + " ") == ["", v, ""]
  {
    var t := v + " ";
    assert " " + v + " " == "" + " " + t;
    OneWordPieces(v);
    PiecesAfterWord("", t);
  }

  lemma DoubleSpacePieces(w: string, v: string)
    requires ' ' !in w && ' ' !in v
    ensures Pieces(w + "  " + v + " ") == [w, "", v, ""]
  {
    calc {
      Pieces(w + "  " + v + " ");
      { SecondSpaceLeads(w, v); }
      Pieces(w + " " + (" " + v + " "));
      { PiecesAfterWord(w, " " + v + " "); }
      [w] + Pieces(" " + v + " ");
      { LeadingSpacePieces(v); }
      [w] + ["", v, ""];
    }
  }

  /** The second of two spaces starts the rest after the first. */
  lemma SecondSpaceLeads(w: string, v: string)
    ensures w + "  " + v + " " == w + " " + (" " + v + " ")
  {
    assert "  " + v + " " == " " + (" " + v + " ");
  }

  lemma DropFinalEmpty(s: string, w: string, v: string)
    requires v != "" && ' ' in s && Pieces(s) == [w, "", v, ""]
    ensures SplitAll(s) == [w, "", v]
  {
    assert DropTrailingEmpty([w, "", v, ""]) == [w, "", v] by {
      assert [w, "", v, ""][..3] == [w, "", v];
    }
  }

  /** Two spaces between the words make three parts, so the command gets "". */
  lemma DoubleSpace(w: string, v: string)
    requires w != "" && v != "" && ' ' !in w && ' ' !in v
    ensures |SplitAll(w + "  " + v + " ")| == 3
    ensures ReplayArgument(SplitAll(w + "  " + v + " ")) == ""
  {
    var s := w + "  " + v + " ";
    DoubleSpacePieces(w, v);
    assert s[|w|] == ' ';
    DropFinalEmpty(s, w, v);
  }

  /**
   * The whole of `execute(argument)`: the outcome, the collection state and the reader's
   * lines afterwards, and the files afterwards. `s.lines` are the lines of System.in.
   */
  function ScriptEffect(m: map<string, Command>, loop: bool, today: Date, files: map<string, seq<string>>,
                        argument: string, s: World): (r: (Outcome, World, map<string, seq<string>>))
    requires StandardKeys(m)
  {
    if argument == "" then (WrongArguments, s, files)
    else
      var split := FilesAfterSplit(m.Keys, files, argument);
      if DataFileName !in split || CommandsFileName !in split then (Reported(IoError), s, split)
      else
        var run := Replay(Decisions(m), Effects(!loop, today), split[CommandsFileName], s.(lines := split[DataFileName]));
        if run.0 == Exited then (Exited, run.1, split)
        else (Done, run.1.(lines := s.lines), split - {DataFileName, CommandsFileName})
  }

  /**
   * Unless the script exits the program, the reader goes back to System.in with its lines
   * untouched, both work files are gone, and every other file is as before.
   */
  lemma ScriptCleansUp(m: map<string, Command>, loop: bool, today: Date, files: map<string, seq<string>>,
                       argument: string, s: World)
    requires StandardKeys(m)
    requires argument != "" && argument in files
    requires ScriptEffect(m, loop, today, files, argument, s).0 != Exited
    ensures ScriptEffect(m, loop, today, files, argument, s).0 == Done
    ensures ScriptEffect(m, loop, today, files, argument, s).1.lines == s.lines
    ensures DataFileName !in ScriptEffect(m, loop, today, files, argument, s).2
    ensures CommandsFileName !in ScriptEffect(m, loop, today, files, argument, s).2
    ensures forall f :: f != DataFileName && f != CommandsFileName ==>
      (f in ScriptEffect(m, loop, today, files, argument, s).2 <==> f in files)
  {
    var split := FilesAfterSplit(m.Keys, files, argument);
    assert DataFileName in split && CommandsFileName in split;
    var run := Replay(Decisions(m), Effects(!loop, today), split[CommandsFileName], s.(lines := split[DataFileName]));
    ScriptEffectRuns(m, loop, today, files, argument, s, split, run);
  }

  /** With no script and no stale work files, nothing runs and nothing changes. */
  lemma MissingScript(m: map<string, Command>, loop: bool, today: Date, files: map<string, seq<string>>,
                      argument: string, s: World)
    requires StandardKeys(m)
    requires argument != "" && argument !in files && DataFileName !in files
    ensures ScriptEffect(m, loop, today, files, argument, s) == (Reported(IoError), s, files)
  {
  }

  /** ScriptEffect once the split is done and the replay has run. */
  lemma ScriptEffectRuns(m: map<string, Command>, loop: bool, today: Date, files: map<string, seq<string>>,
                         argument: string, s: World, split: map<string, seq<string>>, run: (Outcome, World))
    requires StandardKeys(m) && argument != ""
    requires split == FilesAfterSplit(m.Keys, files, argument)
    requires DataFileName in split && CommandsFileName in split
    requires run == Replay(Decisions(m), Effects(!loop, today), split[CommandsFileName], s.(lines := split[DataFileName]))
    ensures run.0 == Exited ==> ScriptEffect(m, loop, today, files, argument, s) == (Exited, run.1, split)
    ensures run.0 != Exited ==>
      ScriptEffect(m, loop, today, files, argument, s) == (Done, run.1.(lines := s.lines), split - {DataFileName, CommandsFileName})
  {
  }

  // ---------------------------------------------------------------- the command

  /** The first line of a non-empty command file is replayed first. */
  lemma ReplayUnfold(decide: Decide, run: Effect, commands: seq<string>, s: World)
    requires commands != []
    ensures decide(commands[0]).Fails? ==> Replay(decide, run, commands, s) == (Aborted, s)
    ensures decide(commands[0]).Skips? ==> Replay(decide, run, commands, s) == Replay(decide, run, commands[1..], s)
    ensures decide(commands[0]).Runs? ==>
      var r := run(decide(commands[0]).kind, decide(commands[0]).argument, s);
      Replay(decide, run, commands, s) == if r.0 == Aborted || r.0 == Exited then r else Replay(decide, run, commands[1..], r.1)
  {
  }

  /** The replay loop's decision for one command-file line. */
  method DecideStep(m: CommandMap, commandLine: string, ghost decide: Decide) returns (step: Step)
    requires DecidesAs(decide, m.entries)
    ensures step == decide(commandLine)
    ensures step.Runs? ==> step.kind != Kind.ExecuteScript
  {
    ghost var expected := ReplayStep(m.entries, commandLine);
    // line = nextLine().trim(); args = (line.trim() + " ").split(" ")
    var args := ReplayArgs(commandLine);
    if args == [] {
      step := Fails;
      assert step == expected;
      return;
    }
    var key := FindKey(m.entries, Trim(args[0]));
    if key.Some? && !EqualsIgnoreCase(key.value, "execute_script") {
      ScriptKeyIsExecuteScript(m.entries, key.value);
      var argument := if |args| == 2 then args[1] else "";
      step := Runs(m.entries[key.value].kind, argument);
    } else {
      step := Skips;
    }
    assert step == expected;
  }

  /** `command.execute(arg)` for a command other than execute_script, seen through `run`. */
  method RunCommand(store: CollectionControl, kind: Kind, argument: string, ghost run: Effect) returns (outcome: Outcome)
    requires kind != Kind.ExecuteScript && !store.communicationControl.flagForScr
    requires RunsAsExecute(run, store.communicationControl.loop, store.communicationControl.today)
    modifies store`workers, store`idCounter, store.communicationControl`flagForScr, store.communicationControl.source
    ensures ReaderKept(store)
    ensures (outcome, Snapshot(store)) == run(kind, argument, old(Snapshot(store)))
  {
    outcome := Execute(kind, store, argument);
  }

  /**
   * The body of the replay loop for the first of `commands`: either the replay stops
   * here with `outcome`, or what is left to replay is the rest of the lines.
   */
  method ReplayFirst(store: CollectionControl, m: CommandMap, commands: seq<string>, ghost decide: Decide, ghost run: Effect)
    returns (stop: bool, outcome: Outcome)
    requires commands != [] && m == store.bufferOfCommandMap && DecidesAs(decide, m.entries)
    requires !store.communicationControl.flagForScr
    requires RunsAsExecute(run, store.communicationControl.loop, store.communicationControl.today)
    modifies store`workers, store`idCounter, store.communicationControl`flagForScr, store.communicationControl.source
    ensures ReaderKept(store)
    ensures stop ==> (outcome, Snapshot(store)) == Replay(decide, run, commands, old(Snapshot(store)))
    ensures !stop ==> Replay(decide, run, commands[1..], Snapshot(store)) == Replay(decide, run, commands, old(Snapshot(store)))
  {
    ghost var before := Snapshot(store);
    ReplayUnfold(decide, run, commands, before);
    var step := DecideStep(m, commands[0], decide);
    match step {
      case Fails =>
        // args[0] throws ArrayIndexOutOfBoundsException
        return true, Aborted;
      case Skips =>
        return false, Done;
      case Runs(kind, argument) =>
        outcome := RunCommand(store, kind, argument, run);
        stop := outcome == Aborted || outcome == Exited;
    }
  }

  /** The replay loop over the command file's lines; an exception or System.exit ends it. */
  method ReplayCommands(store: CollectionControl, commands: seq<string>, ghost decide: Decide, ghost run: Effect)
    returns (ending: Outcome)
    requires store.bufferOfCommandMap != null && DecidesAs(decide, store.bufferOfCommandMap.entries)
    requires !store.communicationControl.flagForScr
    requires RunsAsExecute(run, store.communicationControl.loop, store.communicationControl.today)
    modifies store`workers, store`idCounter, store.communicationControl`flagForScr, store.communicationControl.source
    ensures ReaderKept(store)
    ensures (ending, Snapshot(store)) == Replay(decide, run, commands, old(Snapshot(store)))
  {
    var m := store.SendCommandMap();
    var i := 0;
    while i < |commands|
      invariant 0 <= i <= |commands|
      invariant ReaderKept(store)
      invariant Replay(decide, run, commands[i..], Snapshot(store)) == Replay(decide, run, commands, old(Snapshot(store)))
    {
      var stop, outcome := ReplayFirst(store, m, commands[i..], decide, run);
      if stop {
        return outcome;
      }
      assert commands[i..][1..] == commands[i + 1..];
      i := i + 1;
    }
    ending := Done;
  }

  /**
   * The try block once both work files are open: script mode is toggled, the reader is
   * bound to the data file, and the command file is replayed.
   */
  method RunScript(store: CollectionControl, data: seq<string>, commands: seq<string>) returns (outcome: Outcome)
    requires store.bufferOfCommandMap != null && StandardKeys(store.bufferOfCommandMap.entries)
    requires !store.communicationControl.flagForScr
    modifies store`workers, store`idCounter
    modifies store.communicationControl`flagForScr, store.communicationControl`loop, store.communicationControl`source
    ensures !store.communicationControl.flagForScr && store.communicationControl.loop == !old(store.communicationControl.loop)
    ensures (outcome, Snapshot(store)) ==
      Replay(Decisions(store.bufferOfCommandMap.entries), Effects(!old(store.communicationControl.loop), store.communicationControl.today),
        commands, old(Snapshot(store)).(lines := data))
  {
    var cc := store.communicationControl;
    var stream := new Stream(data);
    cc.SetUnsetLoop();
    cc.ChangeScanner(stream);
    EffectsRunAsExecute(cc.loop, cc.today);
    DecisionsDecideAs(store.bufferOfCommandMap.entries);
    outcome := ReplayCommands(store, commands, Decisions(store.bufferOfCommandMap.entries), Effects(cc.loop, cc.today));
  }

  /** The finally block: script mode is toggled back, System.in is the reader again, and both work files are deleted. */
  method Restore(store: CollectionControl, fs: FileSystem)
    modifies fs, store.communicationControl`loop, store.communicationControl`source
    ensures store.communicationControl.loop == !old(store.communicationControl.loop)
    ensures store.communicationControl.source == store.communicationControl.systemIn
    ensures fs.files == old(fs.files) - {DataFileName, CommandsFileName}
  {
    var cc := store.communicationControl;
    cc.SetUnsetLoop();
    cc.ChangeScanner(cc.systemIn);
    fs.Delete(CommandsFileName);
    fs.Delete(DataFileName);
    assert fs.files == old(fs.files) - {DataFileName, CommandsFileName};
  }

  /**
   * execute(argument) of ExecuteScript. Only the console runs it (the replay skips it),
   * so the reader is System.in when it starts.
   */
  method ExecuteScript(store: CollectionControl, fs: FileSystem, argument: string) returns (outcome: Outcome)
    requires store.bufferOfCommandMap != null && StandardKeys(store.bufferOfCommandMap.entries)
    requires !store.communicationControl.flagForScr
    requires store.communicationControl.source == store.communicationControl.systemIn
    modifies fs, store`workers, store`idCounter
    modifies store.communicationControl`flagForScr, store.communicationControl`loop, store.communicationControl`source
    ensures outcome != Exited ==>
      !store.communicationControl.flagForScr && store.communicationControl.loop == old(store.communicationControl.loop) &&
      store.communicationControl.source == store.communicationControl.systemIn
    ensures (outcome, Snapshot(store), fs.files) ==
      ScriptEffect(store.bufferOfCommandMap.entries, old(store.communicationControl.loop), store.communicationControl.today,
        old(fs.files), argument, old(Snapshot(store)))
  {
    var cc := store.communicationControl;
    ghost var m, s0, files0, loop0 := store.bufferOfCommandMap.entries, Snapshot(store), fs.files, cc.loop;
    if argument == "" {
      return WrongArguments;
    }
    FileProcessor(store, fs, argument);
    ghost var split := fs.files;
    if DataFileName !in fs.files || CommandsFileName !in fs.files {
      // opening a missing work file throws IOException
      return Reported(IoError);
    }
    var commands := fs.files[CommandsFileName];
    outcome := RunScript(store, fs.files[DataFileName], commands);
    ghost var run := (outcome, Snapshot(store));
    ScriptEffectRuns(m, loop0, cc.today, files0, argument, s0, split, run);
    if outcome == Exited {
      // System.exit: the finally block never runs
      return;
    }
    Restore(store, fs);
    outcome := Done;
  }
}

/**
 * Console: the prompt loop of the program. At startup the workers read from the XML
 * file named on the command line are appended to the collection; then each line typed
 * is split into a command token and an argument, the token is looked up ignoring case,
 * and the command found is executed with the argument.
 */
module Terminal {
  import opened JavaLang
  import opened Data
  import opened Commands
  import opened Input
  import opened Store
  import opened Registry
  import opened Handlers
  import opened Script
  import opened XmlParser
  import opened Files

  // ---------------------------------------------------------------- one line

  /**
   * `(line.trim() + " ").split(" ", 2)` (the same split the script pass uses): always two
   * parts, so `userCommand.length == 0` never holds. The token is the trimmed line up to
   * its first space; the argument is the rest of it with a space appended, or "" when
   * the trimmed line has no space.
   */
  lemma LineParts(line: string)
    ensures |ScriptArgs(line)| == 2
    ensures var t, i := Trim(line), IndexOf(Trim(line), ' ');
      ScriptArgs(line) == if i < 0 then [t, ""] else [t[..i], t[i + 1..] + " "]
  {
    var t, i := Trim(line), IndexOf(Trim(line), ' ');
    var args := ScriptArgs(line);
    if i < 0 {
      assert t + " " == t + " " + "";
      SpaceSplitUnique(args[0], args[1], t, "");
    } else {
      assert t + " " == t[..i] + " " + (t[i + 1..] + " ") by {
        assert t == t[..i] + [t[i]] + t[i + 1..];
      }
      SpaceSplitUnique(args[0], args[1], t[..i], t[i + 1..] + " ");
    }
  }

  /** A text splits in only one way into a part without spaces, a space, and the rest. */
  lemma SpaceSplitUnique(a: string, b: string, x: string, y: string)
    requires a + " " + b == x + " " + y && ' ' !in a && ' ' !in x
    ensures a == x && b == y
  {
    var p := a + " " + b;
    assert p[|a|] == ' ' && p[|x|] == ' ';
    assert forall k :: 0 <= k < |a| ==> p[k] == a[k];
    assert forall k :: 0 <= k < |x| ==> p[k] == x[k];
    assert |a| == |x|;
    assert a == p[..|a|] == x;
    assert b == p[|a| + 1..] == y;
  }

  /** A blank line gives the empty token. */
  lemma BlankLineParts(line: string)
    requires Trim(line) == ""
    ensures ScriptArgs(line) == ["", ""]
  {
    LineParts(line);
  }

  // ---------------------------------------------------------------- the lookup

  /** The command stored under the key equal to `token` ignoring case, if there is one. */
  function Chosen(m: map<string, Command>, token: string): (r: Option<Command>)
    requires KeysDistinctIgnoringCase(m)
  {
    match MatchingKey(m, token)
    case None => None
    case Some(key) => Some(m[key])
  }

  /** A token finds the command under the key it equals ignoring case, and nothing when no key does. */
  lemma ChosenIff(m: map<string, Command>, token: string)
    requires KeysDistinctIgnoringCase(m)
    ensures Chosen(m, token).None? <==> forall key :: key in m ==> !EqualsIgnoreCase(key, token)
    ensures forall key :: key in m && EqualsIgnoreCase(key, token) ==> Chosen(m, token) == Some(m[key])
  {
    forall key | key in m && EqualsIgnoreCase(key, token)
      ensures Chosen(m, token) == Some(m[key])
    {
      MatchingKeyIs(m, token, key);
    }
  }

  /** Whatever the case the user types a command name in, it finds that command. */
  lemma AnyCaseFindsCommand(m: map<string, Command>, token: string, k: Kind)
    requires StandardKeys(m) && StandardName(k) in m && m[StandardName(k)].kind == k
    requires EqualsIgnoreCase(StandardName(k), token)
    ensures Chosen(m, token).Some? && Chosen(m, token).value.kind == k
  {
    MatchingKeyIs(m, token, StandardName(k));
  }

  /** No command name is empty, so a blank line finds no command. */
  lemma EmptyTokenFindsNothing(m: map<string, Command>)
    requires StandardKeys(m)
    ensures Chosen(m, "") == None
  {
    forall key | key in m
      ensures !EqualsIgnoreCase(key, "")
    {
      StandardNameLength(m[key].kind);
      EqualsIgnoreCaseCharwise(key, "");
    }
  }

  // ---------------------------------------------------------------- the session

  /** How interactive() ends: the input runs out, an exception escapes, or System.exit. */
  datatype Ending = InputExhausted | Crashed | ProgramExited

  /** A handler that returns normally reads lines from the input but never adds any. */
  lemma ExecuteConsumes(kind: Kind, loop: bool, today: Date, argument: string, s: World)
    requires kind != ExecuteScript
    ensures |ExecuteEffect(kind, loop, today, argument, s).1.lines| <= |s.lines|
  {
    var read := DraftReader(loop, today, s.lines);
    match kind
    case AddElement => ReadingConsumes(argument, s, read);
    case AddIfMin => ReadingConsumes(argument, s, read);
    case RemoveGreater => ReadingConsumes(argument, s, read);
    case UpdateById => ReadingConsumes(argument, s, read);
    case Clear => assert |ConfirmReader(loop, s.lines).1| <= |s.lines|;
    case _ =>
  }

  /** The handlers that read a worker keep at most the lines the reading left. */
  lemma ReadingConsumes(argument: string, s: World, read: (Read<Draft>, seq<string>))
    requires |read.1| <= |s.lines|
    ensures |AddElementAfter(argument, s, read).1.lines| <= |s.lines|
    ensures |AddIfMinAfter(argument, s, read).1.lines| <= |s.lines|
    ensures |RemoveGreaterAfter(argument, s, read).1.lines| <= |s.lines|
    ensures |UpdateByIdAfter(argument, s, read).1.lines| <= |s.lines|
  {
  }

  /** `command.execute(argument)` for a command the console found, with the files a script touches. */
  function Dispatch(m: map<string, Command>, loop: bool, today: Date, files: map<string, seq<string>>,
                    kind: Kind, argument: string, s: World): (r: (Outcome, World, map<string, seq<string>>))
    requires StandardKeys(m)
    ensures r.0 != Exited ==> |r.1.lines| <= |s.lines|
  {
    if kind == ExecuteScript then ScriptEffect(m, loop, today, files, argument, s)
    else
      ExecuteConsumes(kind, loop, today, argument, s);
      var e := ExecuteEffect(kind, loop, today, argument, s);
      (e.0, e.1, files)
  }

  /**
   * The prompt loop from state `s`, whose `lines` are what is left of System.in: a line
   * whose token finds no command is reported and skipped; an exception that escapes a
   * command, or System.exit, ends the loop; otherwise the next line is read.
   */
  function Session(m: map<string, Command>, loop: bool, today: Date, files: map<string, seq<string>>, s: World)
    : (r: (Ending, World, map<string, seq<string>>))
    requires StandardKeys(m)
    decreases |s.lines|
  {
    if s.lines == [] then (InputExhausted, s, files)
    else
      var userCommand := ScriptArgs(s.lines[0]);
      var next := s.(lines := s.lines[1..]);
      match Chosen(m, userCommand[0])
      case None => Session(m, loop, today, files, next)
      case Some(command) =>
        var r := Dispatch(m, loop, today, files, command.kind, userCommand[1], next);
        if r.0 == Aborted then (Crashed, r.1, r.2)
        else if r.0 == Exited then (ProgramExited, r.1, r.2)
        else Session(m, loop, today, r.2, r.1)
  }

  /** A blank line (or one of blanks) is reported and skipped, and changes nothing. */
  lemma BlankLineSkipped(m: map<string, Command>, loop: bool, today: Date, files: map<string, seq<string>>, s: World)
    requires StandardKeys(m) && s.lines != [] && Trim(s.lines[0]) == ""
    ensures Session(m, loop, today, files, s) == Session(m, loop, today, files, s.(lines := s.lines[1..]))
  {
    BlankLineParts(s.lines[0]);
    EmptyTokenFindsNothing(m);
  }

  /** Lines that name no command leave the collection, the counter and the files as they are. */
  lemma {:induction false} UnknownLinesChangeNothing(m: map<string, Command>, loop: bool, today: Date,
                                                     files: map<string, seq<string>>, s: World)
    requires StandardKeys(m)
    requires forall k :: 0 <= k < |s.lines| ==> Chosen(m, ScriptArgs(s.lines[k])[0]).None?
    ensures Session(m, loop, today, files, s) == (InputExhausted, s.(lines := []), files)
    decreases |s.lines|
  {
    if s.lines != [] {
      var next := s.(lines := s.lines[1..]);
      assert Chosen(m, ScriptArgs(s.lines[0])[0]).None?;
      assert forall k :: 0 <= k < |next.lines| ==> next.lines[k] == s.lines[k + 1];
      UnknownLinesChangeNothing(m, loop, today, files, next);
    }
  }

  /** The loop ends for lack of input only once every line has been read. */
  lemma {:induction false} ExhaustedMeansAllRead(m: map<string, Command>, loop: bool, today: Date,
                                                 files: map<string, seq<string>>, s: World)
    requires StandardKeys(m)
    ensures Session(m, loop, today, files, s).0 == InputExhausted ==> Session(m, loop, today, files, s).1.lines == []
    decreases |s.lines|
  {
    if s.lines != [] {
      var userCommand := ScriptArgs(s.lines[0]);
      var next := s.(lines := s.lines[1..]);
      match Chosen(m, userCommand[0])
      case None =>
        ExhaustedMeansAllRead(m, loop, today, files, next);
      case Some(command) =>
        var r := Dispatch(m, loop, today, files, command.kind, userCommand[1], next);
        if r.0 != Aborted && r.0 != Exited {
          ExhaustedMeansAllRead(m, loop, today, r.2, r.1);
        }
    }
  }

  /** `exit`, typed in any case and alone on its line, ends the loop and changes nothing else. */
  lemma ExitEndsSession(m: map<string, Command>, loop: bool, today: Date, files: map<string, seq<string>>, s: World)
    requires StandardKeys(m) && s.lines != []
    requires "exit" in m && m["exit"].kind == Exit
    requires EqualsIgnoreCase("exit", Trim(s.lines[0]))
    ensures Session(m, loop, today, files, s) == (ProgramExited, s.(lines := s.lines[1..]), files)
  {
    var next := s.(lines := s.lines[1..]);
    ExitLineParts(s.lines[0]);
    MatchingKeyIs(m, Trim(s.lines[0]), "exit");
    assert Chosen(m, ScriptArgs(s.lines[0])[0]) == Some(m["exit"]);
    assert Dispatch(m, loop, today, files, Exit, "", next) == (Exited, next, files);
  }

  /** A line that is `exit` in any case splits into that word and no argument. */
  lemma ExitLineParts(line: string)
    requires EqualsIgnoreCase("exit", Trim(line))
    ensures ScriptArgs(line) == [Trim(line), ""]
  {
    var t := Trim(line);
    EqualsIgnoreCaseCharwise("exit", t);
    assert ' ' !in t by {
      forall k | 0 <= k < |t| ensures t[k] != ' ' {
        assert ToUpperChar(t[k]) == ToUpperChar("exit"[k]);
      }
    }
    LineParts(line);
  }

  /** `exit` with an argument is refused (WrongArgumentsException) and the loop goes on. */
  lemma ExitWithArgumentContinues(m: map<string, Command>, loop: bool, today: Date, files: map<string, seq<string>>, s: World)
    requires StandardKeys(m) && s.lines != []
    requires "exit" in m && m["exit"].kind == Exit
    requires EqualsIgnoreCase("exit", ScriptArgs(s.lines[0])[0]) && ScriptArgs(s.lines[0])[1] != ""
    ensures Session(m, loop, today, files, s) == Session(m, loop, today, files, s.(lines := s.lines[1..]))
  {
    MatchingKeyIs(m, ScriptArgs(s.lines[0])[0], "exit");
  }

  /** One turn of the loop on a line whose token finds no command. */
  lemma SkipStep(m: map<string, Command>, loop: bool, today: Date, files: map<string, seq<string>>, s: World)
    requires StandardKeys(m) && s.lines != [] && Chosen(m, ScriptArgs(s.lines[0])[0]).None?
    ensures Session(m, loop, today, files, s) == Session(m, loop, today, files, s.(lines := s.lines[1..]))
  {
  }

  /** One turn of the loop on a line whose token finds a command, given what the command did. */
  lemma RunStep(m: map<string, Command>, loop: bool, today: Date, files: map<string, seq<string>>, s: World,
                command: Command, r: (Outcome, World, map<string, seq<string>>))
    requires StandardKeys(m) && s.lines != [] && Chosen(m, ScriptArgs(s.lines[0])[0]) == Some(command)
    requires r == Dispatch(m, loop, today, files, command.kind, ScriptArgs(s.lines[0])[1], s.(lines := s.lines[1..]))
    ensures Session(m, loop, today, files, s) ==
      if r.0 == Aborted then (Crashed, r.1, r.2)
      else if r.0 == Exited then (ProgramExited, r.1, r.2)
      else Session(m, loop, today, r.2, r.1)
  {
  }

  /** The collection after startup: the workers read from the XML file appended in order. */
  function Loaded(file: seq<string>, documents: map<string, seq<WorkerElement>>, today: Date, s: World): (r: World)
  {
    var read := ReadEffect(file, documents, today, s.idCounter);
    s.(workers := s.workers + (if read.0.Some? then read.0.value else []), idCounter := read.1)
  }

  /** Without exactly one command-line argument the collection starts as it was. */
  lemma LoadedNeedsOneArgument(file: seq<string>, documents: map<string, seq<WorkerElement>>, today: Date, s: World)
    requires |file| != 1
    ensures Loaded(file, documents, today, s) == s
  {
    assert s.workers + [] == s.workers;
  }

  // ---------------------------------------------------------------- the object

  class Console {
    /** The Scanner over System.in, the one the CommunicationControl returns to. */
    const scanner: Stream
    const commandControl: CommandControl
    const fileControl: FileControl
    const collectionControl: CollectionControl

    constructor(scanner: Stream, commandControl: CommandControl, fileControl: FileControl, collectionControl: CollectionControl)
      ensures this.scanner == scanner && this.commandControl == commandControl
      ensures this.fileControl == fileControl && this.collectionControl == collectionControl
    {
      this.scanner := scanner;
      this.commandControl := commandControl;
      this.fileControl := fileControl;
      this.collectionControl := collectionControl;
    }

    /** chooseCommand: the scan of the map's keys for the one equal to the token ignoring case. */
    method ChooseCommand(token: string) returns (command: Option<Command>)
      requires KeysDistinctIgnoringCase(commandControl.commandMapping.entries)
      ensures command == Chosen(commandControl.commandMapping.entries, token)
    {
      var m := commandControl.GetMapping();
      var key := FindKey(m.entries, token);
      command := if key.Some? then Some(m.entries[key.value]) else None;
    }

    /** The start of interactive(): the workers readXmlFile returns are appended one by one. */
    method LoadWorkers(documents: map<string, seq<WorkerElement>>, today: Date)
      modifies collectionControl`workers, collectionControl`idCounter
      ensures var read := ReadEffect(fileControl.file, documents, today, old(collectionControl.idCounter));
        collectionControl.workers == old(collectionControl.workers) + (if read.0.Some? then read.0.value else []) &&
        collectionControl.idCounter == read.1
    {
      var list := fileControl.ReadXmlFile(documents, today, collectionControl);
      if list.Some? {
        AddAll(list.value);
      } else {
        assert collectionControl.workers + [] == collectionControl.workers;
      }
    }

    /** The loop `for (Worker w : list) addToCollection(w)`. */
    method AddAll(workers: seq<Worker>)
      modifies collectionControl`workers
      ensures collectionControl.workers == old(collectionControl.workers) + workers
    {
      var i := 0;
      while i < |workers|
        invariant 0 <= i <= |workers|
        invariant collectionControl.workers == old(collectionControl.workers) + workers[..i]
      {
        collectionControl.AddToCollection(workers[i]);
        assert workers[..i + 1] == workers[..i] + [workers[i]];
        i := i + 1;
      }
      assert workers[..i] == workers;
    }

    /** `command.execute(argument)` for the command the console found. */
    method Perform(kind: Kind, argument: string, fs: FileSystem) returns (outcome: Outcome)
      requires collectionControl.bufferOfCommandMap == commandControl.commandMapping
      requires StandardKeys(commandControl.commandMapping.entries)
      requires collectionControl.communicationControl.source == collectionControl.communicationControl.systemIn
      requires !collectionControl.communicationControl.flagForScr
      modifies collectionControl`workers, collectionControl`idCounter, collectionControl.communicationControl.source, fs
      modifies collectionControl.communicationControl`flagForScr, collectionControl.communicationControl`loop
      modifies collectionControl.communicationControl`source
      ensures var cc := collectionControl.communicationControl;
        (outcome, Snapshot(collectionControl), fs.files) ==
        Dispatch(commandControl.commandMapping.entries, old(cc.loop), cc.today, old(fs.files), kind, argument,
          old(Snapshot(collectionControl)))
      ensures var cc := collectionControl.communicationControl;
        outcome != Exited ==> cc.source == cc.systemIn && !cc.flagForScr && cc.loop == old(cc.loop)
    {
      if kind == ExecuteScript {
        outcome := Script.ExecuteScript(collectionControl, fs, argument);
      } else {
        outcome := Execute(kind, collectionControl, argument);
      }
    }

    /** One turn of the loop in interactive(): read a line, split it, look it up and execute it. */
    method Turn(fs: FileSystem) returns (ending: Option<Ending>)
      requires collectionControl.bufferOfCommandMap == commandControl.commandMapping
      requires StandardKeys(commandControl.commandMapping.entries)
      requires scanner == collectionControl.communicationControl.systemIn
      requires collectionControl.communicationControl.source == scanner
      requires !collectionControl.communicationControl.flagForScr
      modifies collectionControl`workers, collectionControl`idCounter, scanner, fs
      modifies collectionControl.communicationControl`flagForScr, collectionControl.communicationControl`loop
      modifies collectionControl.communicationControl`source
      ensures var cc := collectionControl.communicationControl;
        ending.None? ==>
          cc.source == scanner && !cc.flagForScr && cc.loop == old(cc.loop) && |scanner.lines| < old(|scanner.lines|)
      ensures var cc, m := collectionControl.communicationControl, commandControl.commandMapping.entries;
        Session(m, old(cc.loop), cc.today, old(fs.files), old(Snapshot(collectionControl))) ==
        if ending.None? then Session(m, old(cc.loop), cc.today, fs.files, Snapshot(collectionControl))
        else (ending.value, Snapshot(collectionControl), fs.files)
    {
      var cc := collectionControl.communicationControl;
      ghost var m := commandControl.commandMapping.entries;
      ghost var before := Snapshot(collectionControl);
      var line := scanner.NextLine();
      if line.None? {
        // NoSuchElementException escapes interactive()
        return Some(InputExhausted);
      }
      var userCommand := ScriptArgs(line.value);
      ghost var next := Snapshot(collectionControl);
      assert next == before.(lines := before.lines[1..]);
      var command := ChooseCommand(userCommand[0]);
      if command.None? {
        // InputException: reported, and the loop goes on
        SkipStep(m, cc.loop, cc.today, fs.files, before);
        return None;
      }
      ghost var files := fs.files;
      var outcome := Perform(command.value.kind, userCommand[1], fs);
      RunStep(m, old(cc.loop), cc.today, files, before, command.value, (outcome, Snapshot(collectionControl), fs.files));
      ending := if outcome == Aborted then Some(Crashed) else if outcome == Exited then Some(ProgramExited) else None;
    }

    /**
     * interactive(): load the workers, then read, split, look up and execute one line
     * after another. `documents` are the XML files that can be read, `fs` the files a
     * script may use.
     */
    method Interactive(documents: map<string, seq<WorkerElement>>, fs: FileSystem) returns (ending: Ending)
      requires collectionControl.bufferOfCommandMap == commandControl.commandMapping
      requires StandardKeys(commandControl.commandMapping.entries)
      requires scanner == collectionControl.communicationControl.systemIn
      requires collectionControl.communicationControl.source == scanner
      requires !collectionControl.communicationControl.flagForScr
      modifies collectionControl`workers, collectionControl`idCounter, scanner, fs
      modifies collectionControl.communicationControl`flagForScr, collectionControl.communicationControl`loop
      modifies collectionControl.communicationControl`source
      ensures (ending, Snapshot(collectionControl), fs.files) ==
        Session(commandControl.commandMapping.entries, old(collectionControl.communicationControl.loop),
          collectionControl.communicationControl.today, old(fs.files),
          Loaded(fileControl.file, documents, collectionControl.communicationControl.today, old(Snapshot(collectionControl))))
    {
      var cc := collectionControl.communicationControl;
      ghost var m := commandControl.commandMapping.entries;
      ghost var loop := cc.loop;
      LoadWorkers(documents, cc.today);
      ghost var start := Snapshot(collectionControl);
      assert start == Loaded(fileControl.file, documents, cc.today, old(Snapshot(collectionControl)));
      ghost var files := fs.files;
      while true
        invariant cc.source == scanner && !cc.flagForScr && cc.loop == loop
        invariant Session(m, loop, cc.today, fs.files, Snapshot(collectionControl)) == Session(m, loop, cc.today, files, start)
        decreases |scanner.lines|
      {
        var turn := Turn(fs);
        if turn.Some? {
          return turn.value;
        }
      }
    }
  }
}

/**
 * The commands that change the collection: AddElement, AddElementIfMin, Clear,
 * RemoveElementByID, RemoveGreater, UpdateByID, FilterGreaterStatus and Sort, and the
 * dispatch of a command kind to its `execute(argument)`.
 *
 * Every command object holds the program's one CollectionControl and its one
 * CommunicationControl; here a handler is a method over that CollectionControl and the
 * CommunicationControl it holds. What a handler does is stated as a function from the
 * observable state before (a `World`) to its outcome and the state after.
 */
module Handlers {
  import opened JavaLang
  import opened Data
  import Commands
  import opened Input
  import opened Store

  /** The error messages a handler prints, by the message text. */
  datatype Report =
    | BadScriptData      // "Некорректный данные в скрипте!"
    | IncorrectIdFormat  // "Incorrect ID format"
    | NotAnInteger       // "неправильный тип данных. Должен быть целочисленным"
    | NotAStatus         // "Не является элементом Status"
    | IoError            // an IOException, printed as an empty error line

  /** How `execute(argument)` ends. */
  datatype Outcome =
    | Done                           // returned normally after doing its work
    | WrongArguments                 // WrongArgumentsException, caught and printed
    | Reported(report: Report)       // another exception, caught and printed
    | Listed(found: seq<Worker>)     // the workers printed, in this order
    | Aborted                        // an exception no handler catches left execute
    | Exited                         // System.exit

  /** The state a handler reads and writes: the list, Worker.idCounter and the unread input. */
  datatype World = World(workers: seq<Worker>, idCounter: Int32, lines: seq<string>)

  function Snapshot(store: CollectionControl): World
    reads store, store.communicationControl, store.communicationControl.source
  {
    World(store.workers, store.idCounter, store.communicationControl.source.lines)
  }

  // ---------------------------------------------------------------- what each handler does

  /** AddElement: no argument allowed; read a worker, give it the next id and append it. */
  function AddElementEffect(loop: bool, today: Date, argument: string, s: World): (r: (Outcome, World))
  {
    AddElementAfter(argument, s, DraftReader(loop, today, s.lines))
  }

  /** AddElement, given what reading a worker from the input gives (used only once the argument passes). */
  function AddElementAfter(argument: string, s: World, read: (Read<Draft>, seq<string>)): (r: (Outcome, World))
  {
    if argument != "" then (WrongArguments, s)
    else
      if read.0.Got? then
        var id := Increment(s.idCounter);
        (Done, World(s.workers + [WorkerWithId(id, read.0.value)], id, read.1))
      else if read.0.Invalid? then (Reported(BadScriptData), s.(lines := read.1))
      else (Aborted, s.(lines := read.1))
  }

  /**
   * AddElementIfMin: the candidate is built (taking the next id) before it is compared,
   * then appended only when the list is empty or its salary is below the minimum.
   */
  function AddIfMinEffect(loop: bool, today: Date, argument: string, s: World): (r: (Outcome, World))
  {
    AddIfMinAfter(argument, s, DraftReader(loop, today, s.lines))
  }

  /** AddElementIfMin, given what reading a worker from the input gives. */
  function AddIfMinAfter(argument: string, s: World, read: (Read<Draft>, seq<string>)): (r: (Outcome, World))
  {
    if argument != "" then (WrongArguments, s)
    else
      if read.0.Got? then
        var id := Increment(s.idCounter);
        var candidate := WorkerWithId(id, read.0.value);
        var added := s.workers == [] || candidate.salary < MinSalary(s.workers);
        (Done, World(if added then s.workers + [candidate] else s.workers, id, read.1))
      else if read.0.Invalid? then (Reported(BadScriptData), s.(lines := read.1))
      else (Aborted, s.(lines := read.1))
  }

  /** Clear: no argument allowed; after a confirmation the list is emptied and the counter reset. */
  function ClearEffect(loop: bool, argument: string, s: World): (r: (Outcome, World))
  {
    if argument != "" then (WrongArguments, s)
    else
      var answer := ConfirmReader(loop, s.lines);
      if !answer.0.Got? then (Aborted, s.(lines := answer.1))
      else if answer.0.value then (Done, World([], 0, answer.1))
      else (Done, s.(lines := answer.1))
  }

  /**
   * RemoveElementByID: the trimmed argument is a zero-based index; the element there is
   * removed and the ids renumbered. An index outside the list escapes.
   */
  function RemoveByIdEffect(argument: string, s: World): (r: (Outcome, World))
  {
    if argument == "" then (WrongArguments, s)
    else match ParseInt(Trim(argument))
      case None => (Reported(IncorrectIdFormat), s)
      case Some(id) =>
        if 0 <= id < |s.workers| then (Done, s.(workers := Renumbered(s.workers[..id] + s.workers[id + 1..])))
        else (Aborted, s)
  }

  /**
   * RemoveGreater: no argument allowed; a pivot is read (taking the next id), every
   * worker whose name sorts before the pivot's is removed, and the ids renumbered.
   */
  function RemoveGreaterEffect(loop: bool, today: Date, argument: string, s: World): (r: (Outcome, World))
  {
    RemoveGreaterAfter(argument, s, DraftReader(loop, today, s.lines))
  }

  /** RemoveGreater, given what reading the pivot from the input gives. */
  function RemoveGreaterAfter(argument: string, s: World, read: (Read<Draft>, seq<string>)): (r: (Outcome, World))
  {
    if argument != "" then (WrongArguments, s)
    else
      if read.0.Got? then
        var id := Increment(s.idCounter);
        var pivot := WorkerWithId(id, read.0.value);
        (Done, World(Renumbered(Survivors(pivot, s.workers)), id, read.1))
      else if read.0.Invalid? then (Reported(BadScriptData), s.(lines := read.1))
      else (Aborted, s.(lines := read.1))
  }

  /**
   * UpdateByID: the trimmed argument is the id; position id-1 is replaced by a worker read
   * from input. The success message follows whatever updateByID did, a missing worker included.
   */
  function UpdateByIdEffect(loop: bool, today: Date, argument: string, s: World): (r: (Outcome, World))
  {
    UpdateByIdAfter(argument, s, DraftReader(loop, today, s.lines))
  }

  /** UpdateByID, given what reading a worker from the input would give (used only once the id passes). */
  function UpdateByIdAfter(argument: string, s: World, read: (Read<Draft>, seq<string>)): (r: (Outcome, World))
  {
    if argument == "" then (WrongArguments, s)
    else match ParseInt(Trim(argument))
      case None => (Reported(NotAnInteger), s)
      case Some(id) =>
        var (result, workers, lines) := Updating(id, s.workers, s.lines, read);
        var outcome := match result
          case Uncaught => Aborted
          case NotANumber => Reported(NotAnInteger)
          case _ => Done;
        (outcome, s.(workers := workers, lines := lines))
  }

  /** FilterGreaterStatus: no argument allowed; one line names the status to compare with. */
  function FilterEffect(argument: string, s: World): (r: (Outcome, World))
  {
    if argument != "" then (WrongArguments, s)
    else if s.lines == [] then (Aborted, s)
    else
      var rest := s.(lines := s.lines[1..]);
      match StatusValueOf(ToUpperCase(Trim(s.lines[0])))
      case None => (Reported(NotAStatus), rest)
      case Some(status) => (Listed(StatusAbove(status, s.workers)), rest)
  }

  /** Sort: whatever the argument, the list is sorted by name. */
  function SortEffect(s: World): (r: (Outcome, World))
  {
    (Done, s.(workers := StableSortByName(s.workers)))
  }

  /**
   * `execute(argument)` of the command of the given kind. Show, Info, Help,
   * PrintFieldOfPerson, GroupByStatus and SaveCollection only print or write a file.
   */
  function ExecuteEffect(kind: Commands.Kind, loop: bool, today: Date, argument: string, s: World): (r: (Outcome, World))
    requires kind != Commands.ExecuteScript
  {
    match kind
    case AddElement => AddElementEffect(loop, today, argument, s)
    case AddIfMin => AddIfMinEffect(loop, today, argument, s)
    case Clear => ClearEffect(loop, argument, s)
    case RemoveElementById => RemoveByIdEffect(argument, s)
    case RemoveGreater => RemoveGreaterEffect(loop, today, argument, s)
    case UpdateById => UpdateByIdEffect(loop, today, argument, s)
    case FilterGreaterStatus => FilterEffect(argument, s)
    case Sort => SortEffect(s)
    case Exit => if argument != "" then (WrongArguments, s) else (Exited, s)
    case Show => NoArgument(argument, s)
    case Info => NoArgument(argument, s)
    case Help => NoArgument(argument, s)
    case PrintFieldOfPerson => PrintPersonsEffect(argument, s)
    case GroupByStatus => NoArgument(argument, s)
    case SaveCollection => if argument == "" then (WrongArguments, s) else (Done, s)
  }

  /** Show, Info, Help and GroupByStatus: no argument allowed; otherwise they only print. */
  function NoArgument(argument: string, s: World): (r: (Outcome, World))
    ensures r.1 == s && (r.0 == Done <==> argument == "") && (r.0 != Done ==> r.0 == WrongArguments)
  {
    if argument != "" then (WrongArguments, s) else (Done, s)
  }

  /**
   * PrintFieldOfPerson: no argument allowed; the persons are sorted with Person.compareTo.
   * Once there are two or more, every person takes part in some comparison, so a missing
   * birthday anywhere throws NullPointerException, which nothing catches.
   */
  function PrintPersonsEffect(argument: string, s: World): (r: (Outcome, World))
  {
    if argument != "" then (WrongArguments, s)
    else if |s.workers| >= 2 && exists k :: 0 <= k < |s.workers| && s.workers[k].person.birthday.None? then (Aborted, s)
    else (Done, s)
  }

  // ---------------------------------------------------------------- properties

  /**
   * AddElement: a refused argument changes nothing; success appends exactly one worker,
   * carrying the advanced counter as its id; any other ending keeps list and counter.
   */
  lemma AddElementAppendsOne(argument: string, s: World, read: (Read<Draft>, seq<string>))
    ensures argument != "" ==> AddElementAfter(argument, s, read) == (WrongArguments, s)
    ensures AddElementAfter(argument, s, read).0 == Done <==> argument == "" && read.0.Got?
    ensures AddElementAfter(argument, s, read).0 == Done ==>
      var after := AddElementAfter(argument, s, read).1;
      after.idCounter == Increment(s.idCounter) && |after.workers| == |s.workers| + 1 &&
      after.workers[..|s.workers|] == s.workers && after.workers[|s.workers|].id == after.idCounter
    ensures AddElementAfter(argument, s, read).0 != Done ==>
      var after := AddElementAfter(argument, s, read).1;
      after.workers == s.workers && after.idCounter == s.idCounter
  {
    var r := AddElementAfter(argument, s, read);
    if r.0 == Done {
      assert r.1.workers[..|s.workers|] == s.workers;
    }
  }

  /**
   * In a script, AddElement never escapes: it either appends the worker read from the
   * next 13 lines, or reports bad data and leaves list and counter alone.
   */
  lemma {:induction false} ScriptedAddElement(today: Date, s: World)
    ensures AddElementEffect(false, today, "", s).0 != Aborted
    ensures AddElementEffect(false, today, "", s).0 == Done ==>
      |s.lines| >= 13 && AddElementEffect(false, today, "", s).1.lines == s.lines[13..]
    ensures AddElementEffect(false, today, "", s).0 != Done ==>
      var after := AddElementEffect(false, today, "", s).1;
      AddElementEffect(false, today, "", s).0 == Reported(BadScriptData) &&
      after.workers == s.workers && after.idCounter == s.idCounter
  {
    var read := DraftReader(false, today, s.lines);
    if read.0.Got? {
      ScriptDraftLines(today, s.lines);
    }
  }

  /**
   * AddElementIfMin: once a worker has been read the counter has advanced, whether or
   * not the candidate is appended; it is appended iff the list was empty or its salary
   * is strictly below every salary in the list.
   */
  lemma AddIfMinCounterAdvances(s: World, read: (Read<Draft>, seq<string>), candidate: Worker)
    requires read.0.Got? && candidate == WorkerWithId(Increment(s.idCounter), read.0.value)
    ensures AddIfMinAfter("", s, read).0 == Done
    ensures AddIfMinAfter("", s, read).1.idCounter == Increment(s.idCounter)
    ensures AddIfMinAfter("", s, read).1.workers == s.workers + [candidate] <==>
      forall w :: w in s.workers ==> candidate.salary < w.salary
    ensures AddIfMinAfter("", s, read).1.workers == s.workers + [candidate] ||
      AddIfMinAfter("", s, read).1.workers == s.workers
  {
    if s.workers != [] {
      var m := MinSalary(s.workers);
      if forall w :: w in s.workers ==> candidate.salary < w.salary {
        var v :| v in s.workers && v.salary == m;
      }
    }
    assert s.workers + [candidate] != s.workers by {
      assert |s.workers + [candidate]| != |s.workers|;
    }
  }

  /** AddElementIfMin without a worker read changes neither list nor counter. */
  lemma AddIfMinFailureKeeps(argument: string, s: World, read: (Read<Draft>, seq<string>))
    requires argument != "" || !read.0.Got?
    ensures AddIfMinAfter(argument, s, read).0 != Done
    ensures AddIfMinAfter(argument, s, read).1.workers == s.workers
    ensures AddIfMinAfter(argument, s, read).1.idCounter == s.idCounter
  {
  }

  /**
   * Clear: a refused argument changes nothing; otherwise the list is empty and the
   * counter 0 exactly when the answer was yes, and in a script the answer is always yes.
   */
  lemma ClearAfterConfirm(loop: bool, argument: string, s: World)
    ensures argument != "" ==> ClearEffect(loop, argument, s) == (WrongArguments, s)
    ensures argument == "" && !loop ==> ClearEffect(loop, argument, s) == (Done, World([], 0, s.lines))
    ensures argument == "" && loop && s.lines != [] && Trim(s.lines[0]) == "y" ==>
      ClearEffect(loop, argument, s) == (Done, World([], 0, s.lines[1..]))
    ensures argument == "" && loop && s.lines != [] && Trim(s.lines[0]) != "y" ==>
      ClearEffect(loop, argument, s) == (Done, s.(lines := s.lines[1..]))
  {
  }

  /**
   * RemoveElementByID with an index inside the list: the element at that zero-based index
   * is gone, the others keep their order, and the ids are 1..N again.
   */
  lemma RemoveByIdRemovesAt(argument: string, s: World, id: int, after: World)
    requires argument != "" && ParseInt(Trim(argument)) == Some(id) && 0 <= id < |s.workers|
    requires after == RemoveByIdEffect(argument, s).1
    ensures RemoveByIdEffect(argument, s).0 == Done
    ensures after.idCounter == s.idCounter && after.lines == s.lines
    ensures |after.workers| == |s.workers| - 1
    ensures forall i :: 0 <= i < |after.workers| ==> after.workers[i].id == i + 1
    ensures forall i :: 0 <= i < id ==> after.workers[i] == s.workers[i].SetID(i + 1)
    ensures forall i :: id <= i < |after.workers| ==> after.workers[i] == s.workers[i + 1].SetID(i + 1)
  {
    var rest := s.workers[..id] + s.workers[id + 1..];
    assert after.workers == Renumbered(rest);
    RenumberedIds(rest);
  }

  /** RemoveElementByID without a usable index changes nothing. */
  lemma RemoveByIdOtherwise(argument: string, s: World)
    requires argument == "" || ParseInt(Trim(argument)).None? ||
             !(0 <= ParseInt(Trim(argument)).value < |s.workers|)
    ensures RemoveByIdEffect(argument, s).1 == s
    ensures RemoveByIdEffect(argument, s).0 != Done
  {
  }

  /**
   * RemoveGreater with a pivot read: the pivot is not added; what stays are the survivors
   * of removeGreater (see SurvivorsMembers), in their old order, numbered 1..N.
   */
  lemma {:induction false} RemoveGreaterKeeps(s: World, read: (Read<Draft>, seq<string>), pivot: Worker, after: World)
    requires read.0.Got? && pivot == WorkerWithId(Increment(s.idCounter), read.0.value)
    requires after == RemoveGreaterAfter("", s, read).1
    ensures RemoveGreaterAfter("", s, read).0 == Done
    ensures after.workers == Renumbered(Survivors(pivot, s.workers))
    ensures |after.workers| <= |s.workers|
    ensures forall i :: 0 <= i < |after.workers| ==> after.workers[i].id == i + 1
  {
    RenumberedIds(Survivors(pivot, s.workers));
  }

  /** RemoveGreater without a pivot changes neither list nor counter (the ids stay as they were). */
  lemma RemoveGreaterFailureKeeps(argument: string, s: World, read: (Read<Draft>, seq<string>))
    requires argument != "" || !read.0.Got?
    ensures RemoveGreaterAfter(argument, s, read).0 != Done
    ensures RemoveGreaterAfter(argument, s, read).1.workers == s.workers
    ensures RemoveGreaterAfter(argument, s, read).1.idCounter == s.idCounter
  {
  }

  /** UpdateByID never changes the size of the list or the counter, whatever is read. */
  lemma UpdateByIdKeepsSize(argument: string, s: World, read: (Read<Draft>, seq<string>))
    ensures |UpdateByIdAfter(argument, s, read).1.workers| == |s.workers|
    ensures UpdateByIdAfter(argument, s, read).1.idCounter == s.idCounter
  {
  }

  /**
   * UpdateByID changes at most the element at position id-1, to a worker whose id is id,
   * and only when it reports success.
   */
  lemma UpdateByIdChangesOnlyAt(argument: string, s: World, read: (Read<Draft>, seq<string>), i: int)
    requires 0 <= i < |s.workers| && i < |UpdateByIdAfter(argument, s, read).1.workers|
    requires UpdateByIdAfter(argument, s, read).1.workers[i] != s.workers[i]
    ensures argument != "" && ParseInt(Trim(argument)) == Some(i + 1)
    ensures UpdateByIdAfter(argument, s, read).1.workers[i].id == i + 1
    ensures UpdateByIdAfter(argument, s, read).0 == Done
  {
  }

  /**
   * UpdateByID ends the loop exactly when reading the worker runs out of input, or when
   * the worker was read but the id is below 1 (ArrayList.set throws); a salary that is not
   * a number is caught by execute itself, which reports it and changes nothing but the input.
   */
  lemma UpdateByIdAbortedIff(argument: string, s: World, read: (Read<Draft>, seq<string>))
    ensures UpdateByIdAfter(argument, s, read).0 == Aborted <==>
      argument != "" && ParseInt(Trim(argument)).Some? && ParseInt(Trim(argument)).value <= |s.workers| &&
      (read.0 == Escaped(NoSuchElement) || (read.0.Got? && ParseInt(Trim(argument)).value < 1))
    ensures (argument != "" && ParseInt(Trim(argument)).Some? && ParseInt(Trim(argument)).value <= |s.workers| &&
      read.0 == Escaped(NumberFormat)) ==>
        UpdateByIdAfter(argument, s, read) == (Reported(NotAnInteger), s.(lines := read.1))
  {
  }

  /**
   * Interactively, `update_by_id 1` followed by a name, two coordinates and a salary that is
   * not a number: the exception is reported, the list is kept and the loop goes on, while
   * `addElement` on the same lines lets the exception end the loop.
   */
  lemma UpdateByIdUnparsableSalary(today: Date, s: World, rest: seq<string>)
    requires |s.workers| >= 1 && s.lines == ["Bob", "1", "1", "abc"] + rest
    ensures UpdateByIdEffect(true, today, "1", s) == (Reported(NotAnInteger), s.(lines := rest))
    ensures AddElementEffect(true, today, "", s) == (Aborted, s.(lines := rest))
  {
    UnparsableSalaryLines(today, s.lines);
    assert s.lines[4..] == rest;
    var read := DraftReader(true, today, s.lines);
    assert AddElementEffect(true, today, "", s) == AddElementAfter("", s, read);
    assert UpdateByIdEffect(true, today, "1", s) == UpdateByIdAfter("1", s, read);
    TrimOfTrimmed("1");
    assert ParseInt(Trim("1")) == Some(1);
  }

  /** The lines "Bob", "1", "1", "abc" read interactively: a name, coordinates, then the exception. */
  lemma UnparsableSalaryLines(today: Date, lines: seq<string>)
    requires |lines| >= 4 && lines[0] == "Bob" && lines[1] == "1" && lines[2] == "1" && lines[3] == "abc"
    ensures DraftReader(true, today, lines) == (Escaped(NumberFormat), lines[4..])
  {
    TrimOfTrimmed("Bob");
    TrimOfTrimmed("abc");
    assert ParseName(lines[0]).Some?;
    assert SalaryConversion(lines[3]).Thrown?;
    CoordinatesOneOne(lines[1..]);
    assert lines[1..][2..] == lines[3..];
    SalaryEscapes(today, lines);
  }

  /** Two lines "1" make the coordinates (1, 1). */
  lemma CoordinatesOneOne(lines: seq<string>)
    requires |lines| >= 2 && lines[0] == "1" && lines[1] == "1"
    ensures CoordinatesReader(true, lines).0.Got?
    ensures CoordinatesReader(true, lines).1 == lines[2..]
  {
    TrimOfTrimmed("1");
    assert ParseInteger("1") == Some(1);
    assert lines[1..][1..] == lines[2..];
  }

  /** UpdateByID reports success even when there is no worker with that id. */
  lemma UpdateByIdMissingStillDone(loop: bool, today: Date, argument: string, s: World, id: int)
    requires argument != "" && ParseInt(Trim(argument)) == Some(id) && id > |s.workers|
    ensures UpdateByIdEffect(loop, today, argument, s) == (Done, s)
  {
  }

  /**
   * FilterGreaterStatus never changes the list or the counter; it reads one line only
   * when the argument is empty; the listed workers are those of higher status, in order.
   */
  lemma FilterReadsOneLine(argument: string, s: World)
    ensures FilterEffect(argument, s).1.workers == s.workers && FilterEffect(argument, s).1.idCounter == s.idCounter
    ensures argument != "" ==> FilterEffect(argument, s).1.lines == s.lines
    ensures argument == "" && s.lines != [] ==> FilterEffect(argument, s).1.lines == s.lines[1..]
    ensures FilterEffect(argument, s).0.Listed? ==>
      forall w :: w in FilterEffect(argument, s).0.found <==>
        w in s.workers && StatusValueOf(ToUpperCase(Trim(s.lines[0]))).value.Ordinal() < w.status.Ordinal()
  {
    var r := FilterEffect(argument, s);
    if r.0.Listed? {
      StatusAboveMembers(StatusValueOf(ToUpperCase(Trim(s.lines[0]))).value, s.workers);
    }
  }

  /** Sort: any argument; the result is sorted by name, a permutation, and sorting again changes nothing. */
  lemma SortTwiceIsOnce(s: World)
    ensures SortedByName(SortEffect(s).1.workers)
    ensures multiset(SortEffect(s).1.workers) == multiset(s.workers)
    ensures SortEffect(s).1.idCounter == s.idCounter && SortEffect(s).1.lines == s.lines
    ensures SortEffect(SortEffect(s).1) == SortEffect(s)
  {
    SortIsSorted(s.workers);
    SortIdempotent(s.workers);
  }

  /**
   * PrintFieldOfPerson escapes exactly when, with no argument, some pair of persons in
   * the list cannot be compared; it changes nothing either way.
   */
  lemma PrintPersonsThrowsIff(argument: string, s: World)
    ensures PrintPersonsEffect(argument, s).1 == s
    ensures PrintPersonsEffect(argument, s).0 == Aborted <==>
      argument == "" && exists i, j :: 0 <= i < j < |s.workers| && s.workers[i].person.CompareTo(s.workers[j].person).NullPointer?
  {
    var ws := s.workers;
    if argument == "" && |ws| >= 2 && exists k :: 0 <= k < |ws| && ws[k].person.birthday.None? {
      var k :| 0 <= k < |ws| && ws[k].person.birthday.None?;
      if k == 0 {
        assert ws[0].person.CompareTo(ws[1].person).NullPointer?;
      } else {
        assert ws[0].person.CompareTo(ws[k].person).NullPointer?;
      }
    }
  }

  // ---------------------------------------------------------------- the handlers

  /** The handler methods all keep the reader state and the stream object. */
  twostate predicate ReaderKept(store: CollectionControl)
    reads store, store.communicationControl
  {
    !store.communicationControl.flagForScr && store.communicationControl.source == old(store.communicationControl.source)
  }

  method AddElement(store: CollectionControl, argument: string) returns (outcome: Outcome)
    requires !store.communicationControl.flagForScr
    modifies store`workers, store`idCounter, store.communicationControl`flagForScr, store.communicationControl.source
    ensures ReaderKept(store)
    ensures (outcome, Snapshot(store)) ==
      AddElementEffect(store.communicationControl.loop, store.communicationControl.today, argument, old(Snapshot(store)))
  {
    if argument != "" {
      return WrongArguments;
    }
    ghost var before := Snapshot(store);
    var draft := store.communicationControl.ReadDraft();
    outcome := AddElementRead(store, draft, before);
  }

  /** The part of AddElement after the worker has been read. */
  method AddElementRead(store: CollectionControl, draft: Read<Draft>, ghost before: World) returns (outcome: Outcome)
    requires before.workers == store.workers && before.idCounter == store.idCounter
    modifies store`workers, store`idCounter
    ensures (outcome, Snapshot(store)) == AddElementAfter("", before, (draft, store.communicationControl.source.lines))
  {
    if draft.Invalid? {
      return Reported(BadScriptData);
    }
    if draft.Escaped? {
      return Aborted;
    }
    var worker := store.NewWorker(draft.value);
    store.AddToCollection(worker);
    outcome := Done;
  }

  method AddElementIfMin(store: CollectionControl, argument: string) returns (outcome: Outcome)
    requires !store.communicationControl.flagForScr
    modifies store`workers, store`idCounter, store.communicationControl`flagForScr, store.communicationControl.source
    ensures ReaderKept(store)
    ensures (outcome, Snapshot(store)) ==
      AddIfMinEffect(store.communicationControl.loop, store.communicationControl.today, argument, old(Snapshot(store)))
  {
    if argument != "" {
      return WrongArguments;
    }
    ghost var before := Snapshot(store);
    var draft := store.communicationControl.ReadDraft();
    outcome := AddIfMinRead(store, draft, before);
  }

  /** The part of AddElementIfMin after the worker has been read. */
  method AddIfMinRead(store: CollectionControl, draft: Read<Draft>, ghost before: World) returns (outcome: Outcome)
    requires before.workers == store.workers && before.idCounter == store.idCounter
    modifies store`workers, store`idCounter
    ensures (outcome, Snapshot(store)) == AddIfMinAfter("", before, (draft, store.communicationControl.source.lines))
  {
    if draft.Invalid? {
      return Reported(BadScriptData);
    }
    if draft.Escaped? {
      return Aborted;
    }
    var candidate := store.NewWorker(draft.value);
    var added := store.AddIfSmallerSalary(candidate);
    outcome := Done;
  }

  method Clear(store: CollectionControl, argument: string) returns (outcome: Outcome)
    requires !store.communicationControl.flagForScr
    modifies store`workers, store`idCounter, store.communicationControl.source
    ensures ReaderKept(store)
    ensures (outcome, Snapshot(store)) == ClearEffect(store.communicationControl.loop, argument, old(Snapshot(store)))
  {
    if argument != "" {
      return WrongArguments;
    }
    var yes := store.communicationControl.Confirm();
    if !yes.Got? {
      return Aborted;
    }
    if yes.value {
      store.Clear();
      store.idCounter := 0;
    }
    outcome := Done;
  }

  method RemoveElementByID(store: CollectionControl, argument: string) returns (outcome: Outcome)
    requires !store.communicationControl.flagForScr
    modifies store`workers
    ensures ReaderKept(store)
    ensures (outcome, Snapshot(store)) == RemoveByIdEffect(argument, old(Snapshot(store)))
  {
    if argument == "" {
      return WrongArguments;
    }
    var id := ParseInt(Trim(argument));
    if id.None? {
      return Reported(IncorrectIdFormat);
    }
    var removed := store.RemoveElementByID(id.value);
    if !removed {
      // ArrayList.remove(int) throws IndexOutOfBoundsException, which nothing catches
      return Aborted;
    }
    store.UpdateAllIDs();
    outcome := Done;
  }

  method RemoveGreater(store: CollectionControl, argument: string) returns (outcome: Outcome)
    requires !store.communicationControl.flagForScr
    modifies store`workers, store`idCounter, store.communicationControl`flagForScr, store.communicationControl.source
    ensures ReaderKept(store)
    ensures (outcome, Snapshot(store)) ==
      RemoveGreaterEffect(store.communicationControl.loop, store.communicationControl.today, argument, old(Snapshot(store)))
  {
    if argument != "" {
      return WrongArguments;
    }
    ghost var before := Snapshot(store);
    var draft := store.communicationControl.ReadDraft();
    outcome := RemoveGreaterRead(store, draft, before);
  }

  /** The part of RemoveGreater after the pivot has been read. */
  method RemoveGreaterRead(store: CollectionControl, draft: Read<Draft>, ghost before: World) returns (outcome: Outcome)
    requires before.workers == store.workers && before.idCounter == store.idCounter
    modifies store`workers, store`idCounter
    ensures (outcome, Snapshot(store)) == RemoveGreaterAfter("", before, (draft, store.communicationControl.source.lines))
  {
    if draft.Invalid? {
      return Reported(BadScriptData);
    }
    if draft.Escaped? {
      return Aborted;
    }
    var pivot := store.NewWorker(draft.value);
    store.RemoveGreater(pivot);
    store.UpdateAllIDs();
    outcome := Done;
  }

  method UpdateByID(store: CollectionControl, argument: string) returns (outcome: Outcome)
    requires !store.communicationControl.flagForScr
    modifies store`workers, store.communicationControl`flagForScr, store.communicationControl.source
    ensures ReaderKept(store)
    ensures (outcome, Snapshot(store)) ==
      UpdateByIdEffect(store.communicationControl.loop, store.communicationControl.today, argument, old(Snapshot(store)))
  {
    if argument == "" {
      return WrongArguments;
    }
    var id := ParseInt(Trim(argument));
    if id.None? {
      return Reported(NotAnInteger);
    }
    var result := store.UpdateByID(id.value);
    if result.Uncaught? {
      outcome := Aborted;
    } else if result.NotANumber? {
      // the NumberFormatException of setSalary reaches execute's own catch
      outcome := Reported(NotAnInteger);
    } else {
      outcome := Done;
    }
  }

  method FilterGreaterStatus(store: CollectionControl, argument: string) returns (outcome: Outcome)
    requires !store.communicationControl.flagForScr
    modifies store.communicationControl.source
    ensures ReaderKept(store)
    ensures (outcome, Snapshot(store)) == FilterEffect(argument, old(Snapshot(store)))
  {
    if argument != "" {
      return WrongArguments;
    }
    var line := store.communicationControl.SetEnotherInfo();
    if line.None? {
      return Aborted;
    }
    var found := store.FilterGreaterThanStatus(line.value);
    if found.None? {
      return Reported(NotAStatus);
    }
    outcome := Listed(found.value);
  }

  method Sort(store: CollectionControl, argument: string) returns (outcome: Outcome)
    requires !store.communicationControl.flagForScr
    modifies store`workers
    ensures ReaderKept(store)
    ensures (outcome, Snapshot(store)) == SortEffect(old(Snapshot(store)))
  {
    store.Sort();
    outcome := Done;
  }

  /** PrintFieldOfPerson: `sortPerson()` collects the persons in list order and sorts them. */
  method PrintFieldOfPerson(store: CollectionControl, argument: string) returns (outcome: Outcome)
    ensures (outcome, Snapshot(store)) == PrintPersonsEffect(argument, Snapshot(store))
  {
    if argument != "" {
      return WrongArguments;
    }
    var persons := [];
    var missing := false;
    var i := 0;
    while i < |store.workers|
      invariant 0 <= i <= |store.workers| && |persons| == i
      invariant forall k :: 0 <= k < i ==> persons[k] == store.workers[k].person
      invariant missing <==> exists k :: 0 <= k < i && persons[k].birthday.None?
    {
      persons := persons + [store.workers[i].person];
      missing := missing || store.workers[i].person.birthday.None?;
      i := i + 1;
    }
    outcome := if |persons| >= 2 && missing then Aborted else Done;
  }

  /** `execute(argument)` on the command of the given kind; execute_script has its own module. */
  method Execute(kind: Commands.Kind, store: CollectionControl, argument: string) returns (outcome: Outcome)
    requires kind != Commands.ExecuteScript
    requires !store.communicationControl.flagForScr
    modifies store`workers, store`idCounter, store.communicationControl`flagForScr, store.communicationControl.source
    ensures ReaderKept(store)
    ensures (outcome, Snapshot(store)) == ExecuteEffect(kind, store.communicationControl.loop,
      store.communicationControl.today, argument, old(Snapshot(store)))
  {
    match kind
    case AddElement => outcome := AddElement(store, argument);
    case AddIfMin => outcome := AddElementIfMin(store, argument);
    case Clear => outcome := Clear(store, argument);
    case RemoveElementById => outcome := RemoveElementByID(store, argument);
    case RemoveGreater => outcome := RemoveGreater(store, argument);
    case UpdateById => outcome := UpdateByID(store, argument);
    case FilterGreaterStatus => outcome := FilterGreaterStatus(store, argument);
    case Sort => outcome := Sort(store, argument);
    case Exit => outcome := if argument != "" then WrongArguments else Exited;
    case Show => outcome := if argument != "" then WrongArguments else Done;
    case Info => outcome := if argument != "" then WrongArguments else Done;
    case Help => outcome := if argument != "" then WrongArguments else Done;
    case PrintFieldOfPerson => outcome := PrintFieldOfPerson(store, argument);
    case GroupByStatus => outcome := if argument != "" then WrongArguments else Done;
    case SaveCollection => outcome := if argument == "" then WrongArguments else Done;
  }
}

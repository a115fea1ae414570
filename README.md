# Worker collection manager — a Dafny model

This project models the core of a console program that keeps a list of `Worker`
records in memory. Each worker has a name, coordinates, a salary, a position, a status
and a person with a birthday, a height, a passport id and a location.

At start-up the program reads the collection from the XML file named on the command
line. Then it reads commands line by line: `addElement`, `add_if_min`, `clear`,
`remove_element_by_id`, `remove_greater`, `update_by_id`, `filter_greater_than_status`,
`sort`, `execute_script`, `save` and `exit`, plus the output-only `show`, `info`, `help`,
`group_counting_by_status` and `print_field_ascending_person`.

The model has one Dafny module per component of the program:

- `JavaLang` (`java_lang.dfy`): the parts of `java.lang` the program relies on: `String.trim`, `split(" ")` and `split(" ", 2)`, `compareTo`, `equalsIgnoreCase`/`toUpperCase` on ASCII, `Integer.parseInt`, `Long.parseLong`, a decimal subset of `Double.parseDouble`, and `++` on a 32-bit `int`
- `Data` (`data.dfy`): the entities `Status`, `Position`, `Coordinates`, `Location`, `Person` and `Worker`, with their `equals`/`compareTo`, `valueOf` and `nameList`
- `Commands` (`commands.dfy`): `AbstractCommand` with its name and description, the sixteen command classes, and the name→command `HashMap`
- `Input` (`communication_control.dfy`): `CommunicationControl`: the `Scanner` it reads from, interactive versus script mode, and every reader (`setName` … `chooseStatus`, `confirm`)
- `Store` (`collection_control.dfy`): `CollectionControl`: the `ArrayList` of workers and `Worker.idCounter`, and every operation on them
- `Registry` (`command_control.dfy`): `CommandControl`: how the command map is filled, and the case-insensitive lookup
- `Handlers` (`handlers.dfy`): `execute(argument)` of every command except `execute_script`
- `Script` (`execute_script.dfy`): `ExecuteScript`: the split of a script into a command file and a data file, the replay, and the clean-up
- `XmlParser` (`parser_xml.dfy`): `ParserXml`: how a worker element is turned into a `Worker`, and the all-or-nothing list
- `Files` (`file_control.dfy`): `FileControl`: the events `writeToFile` hands an `XMLStreamWriter`, and `readXmlFile`
- `Terminal` (`console.dfy`): `Console`: loading the file at start-up, then the prompt loop and the command lookup

Objects that the program changes in place are Dafny classes: `CollectionControl`,
`CommunicationControl`, the `Scanner` (`Stream`), the command `HashMap` (`CommandMap`),
`CommandControl`, `Console`, `FileControl`, `ParserXml`, the `XMLStreamWriter` and the
file system. Entities are datatypes.

Each command handler is a method over the one `CollectionControl`. Each is proved
against a function from the observable state before the call (a `World`: the list,
`idCounter` and the unread input lines) to its outcome and the state after. The
properties are lemmas about these functions. Three cases stand in for the ways a call
ends:
- `Escaped`: a Java exception that escapes a reader, with its cause: `NoSuchElementException`
  at the end of input, or the `NumberFormatException` of a salary that is not a number.
- `Aborted`: the end of the console loop or of a script replay, caused by an exception no
  handler catches: an escaped one, or an index out of bounds.
- `Exited`: `System.exit`.

Things that are easy to miss in the source, each stated and proved here:
- A script line is recognised as a command by a case-sensitive test. When it is
  replayed, its command is found ignoring case.
- The replay never runs `execute_script`.
- `System.exit` inside a script skips the clean-up, so the work files stay behind.
- `remove_element_by_id` takes a zero-based index, while `update_by_id` takes an id.
- `update_by_id` reports success even when no worker has that id.
- `update_by_id` catches the `NumberFormatException` of a salary that is not a number
  and carries on, while `addElement`, `add_if_min` and `remove_greater` let it end the loop.
- `add_if_min` and `remove_greater` use up an id even when nothing is added.
- `writeToFile` never closes a `worker` element, so each worker is nested inside the one
  before it. `writeEndDocument` closes them all.
- A birthday that fails to parse in the XML file is stored as `null`. Sorting the persons
  (`print_field_ascending_person`) then throws `NullPointerException` once there are
  two workers or more.

## Model

| member | source | states |
|---|---|---|
| `JavaLang.Increment` | src/main/java/data/Worker.java:34 | `++idCounter` stays a Java `int` and differs from `x + 1` by a multiple of 2^32, so it wraps from `MAX_VALUE` to `MIN_VALUE` |
| `JavaLang.Lead` | src/main/java/support/CommunicationControl.java:81 | the number of leading chars ≤ U+0020 that `trim` removes: all of them, and no more |
| `JavaLang.Tail` | src/main/java/support/CommunicationControl.java:81 | the end of the text `trim` keeps: only chars ≤ U+0020 follow it, and the char before it is not one of them |
| `JavaLang.Trim` | src/main/java/support/CommunicationControl.java:81 | `String.trim` is never longer than its input and neither starts nor ends with a char ≤ U+0020 |
| `JavaLang.TrimOfTrimmed` | src/main/java/support/CommunicationControl.java:81 | a string without leading or trailing blanks is its own trim |
| `JavaLang.TrimIdempotent` | src/main/java/support/CommunicationControl.java:81 | trimming twice is trimming once |
| `JavaLang.TrimIsInfix` | src/main/java/support/CommunicationControl.java:81 | the trimmed text is the original with the leading blanks cut off, a contiguous piece of it |
| `JavaLang.TrimEmptyIff` | src/main/java/support/CommunicationControl.java:81-82 | the trim is empty exactly when every char is ≤ U+0020 (the empty-input checks) |
| `JavaLang.TrimDropsAppendedSpace` | src/main/java/support/Console.java:54 | trimming `t + " "` of an already trimmed `t` gives `t` |
| `JavaLang.IndexOf` | src/main/java/support/Console.java:54 | the first index of the char, or -1 exactly when it is absent |
| `JavaLang.SplitLimit2` | src/main/java/support/Console.java:54 | `split(" ", 2)`: two parts exactly when there is a space, cut at the first space, and nothing is lost |
| `JavaLang.Pieces` | src/main/java/commands/ExecuteScript.java:61 | the text cut at every space: at least one piece, none holding a space |
| `JavaLang.DropTrailingEmpty` | src/main/java/commands/ExecuteScript.java:61 | `split` drops the trailing empty pieces and only those: a prefix that does not end in "" |
| `JavaLang.SplitAll` | src/main/java/commands/ExecuteScript.java:61 | `split(" ")` yields parts that hold no space |
| `JavaLang.PiecesJoin` | src/main/java/commands/ExecuteScript.java:61 | joining the pieces with single spaces gives the original text back |
| `JavaLang.ToUpperCase` | src/main/java/support/CommunicationControl.java:399 | `toUpperCase` keeps the length and maps each char by itself |
| `JavaLang.EqualsIgnoreCaseCharwise` | src/main/java/support/Console.java:73-80 | `equalsIgnoreCase` holds iff the lengths agree and every position agrees after upper-casing |
| `JavaLang.EqualIgnoringCaseAt` | src/main/java/support/Console.java:73-80 | strings equal ignoring case have equal lengths and agree at each position after upper-casing |
| `JavaLang.CompareToZeroIff` | src/main/java/data/Worker.java:139-142 | `String.compareTo` is 0 exactly on equal strings |
| `JavaLang.CompareToAntisymmetric` | src/main/java/data/Worker.java:139-142 | `compareTo(b, a) == -compareTo(a, b)` |
| `JavaLang.CompareToTransitive` | src/main/java/data/Worker.java:139-142 | `compareTo` is a total preorder: `a ≤ b ≤ c` implies `a ≤ c` |
| `JavaLang.ParseIntegral` | src/main/java/support/CommunicationControl.java:228 | a parsed value lies in the type's range, and the text starts with a sign or a digit |
| `JavaLang.ParseInt` | src/main/java/support/CommunicationControl.java:228 | `Integer.parseInt` only yields 32-bit values |
| `JavaLang.ParseLong` | src/main/java/support/CommunicationControl.java:112 | `Long.parseLong` only yields 64-bit values |
| `JavaLang.ParseIntRejectsBlank` | src/main/java/support/CommunicationControl.java:112 | a number with a leading or trailing blank is a `NumberFormatException` |
| `JavaLang.ParseDecimal` | src/main/java/support/CommunicationControl.java:292 | `Double.parseDouble` refuses a blank text, and a trimmed text that is not a plain decimal parses only when it ends in a type suffix |
| `JavaLang.ParseDecimalSuffix` | src/main/java/support/CommunicationControl.java:292 | a `d`, `D`, `f` or `F` after a plain decimal is accepted and does not change its value (`"100d"` is 100) |
| `JavaLang.ParseDecimalUnsigned` | src/main/java/support/CommunicationControl.java:292-293 | a decimal written without '-' is never negative |
| `Data.Status.Ordinal` | src/main/java/data/Status.java:19-39 | `ordinal()` is the declaration position: `values()[ordinal()] == this` |
| `Data.StatusValueOf` | src/main/java/data/Status.java:19-39 | `valueOf` returns the constant with exactly that name, and fails (`IllegalArgumentException`) iff no constant has it |
| `Data.StatusOrdinalBounds` | src/main/java/data/Status.java:19-39 | HIRED has the least ordinal and PROBATION the greatest |
| `Data.StatusInjective` | src/main/java/data/Status.java:19-39 | distinct constants have distinct ordinals and names |
| `Data.StatusValueOfName` | src/main/java/data/Status.java:19-39 | `valueOf(s.name()) == s` |
| `Data.PositionValueOf` | src/main/java/data/Position.java:19-39 | `Position.valueOf`: the constant with that name, or failure iff there is none |
| `Data.PositionValueOfName` | src/main/java/data/Position.java:19-39 | `valueOf(p.name()) == p` |
| `Data.ValuesAreComplete` | src/main/java/data/Status.java:19-39 | `values()` lists every constant exactly once (for both enums) |
| `Data.AppendNames` | src/main/java/data/Status.java:46-52 | the builder after the loop ends in ", " |
| `Data.AppendNamesJoin` | src/main/java/data/Status.java:46-52 | the builder holds the names joined by ", " plus a final ", " |
| `Data.NameListJoin` | src/main/java/data/Status.java:46-52 | `nameList` is the names joined by ", " |
| `Data.StatusNameListValue` | src/main/java/data/Status.java:46-52 | `Status.nameList()` is "HIRED, RECOMMENDED_FOR_PROMOTION, REGULAR, PROBATION" |
| `Data.PositionNameListValue` | src/main/java/data/Position.java:46-52 | `Position.nameList()` is "DIRECTOR, HEAD_OF_DIVISION, HEAD_OF_DEPARTMENT, MANAGER_OF_CLEANING" |
| `Data.ParseLocalDate` | src/main/java/support/CommunicationControl.java:173-177 | `LocalDate.parse(s, "yyyy-MM-dd")` with a four-digit year: only 10-char `dddd-dd-dd` texts, and the result is a real calendar date |
| `Data.DateCompareTo` | src/main/java/data/Person.java:98-101 | date `compareTo` is 0 exactly on equal dates and antisymmetric |
| `Data.CoordinatesEqualsIff` | src/main/java/data/Coordinates.java:68-75 | `Coordinates.equals` is field-wise equality (null-safe on x); false on other classes |
| `Data.LocationEqualsIgnoresName` | src/main/java/data/Location.java:93-101 | two locations are equal iff they differ at most in the name |
| `Data.LocationEqualsEquivalence` | src/main/java/data/Location.java:93-101 | `Location.equals` is reflexive, symmetric and transitive |
| `Data.Person.CompareTo` | src/main/java/data/Person.java:98-101 | `compareTo` throws `NullPointerException` exactly when either birthday is null |
| `Data.PersonEqualsIff` | src/main/java/data/Person.java:109-118 | with a birthday, `Person.equals` holds iff the persons differ at most in the location's name |
| `Data.PersonEqualsThrows` | src/main/java/data/Person.java:109-118 | `equals` throws exactly when all earlier fields match and the receiver's birthday is null |
| `Data.PersonCompareToBirthdayOnly` | src/main/java/data/Person.java:98-101 | `Person.compareTo` depends on the birthdays alone: 0 iff they are equal, and antisymmetric |
| `Data.Worker.SetID` | src/main/java/data/Worker.java:82-85 | `setID` changes the id and nothing else |
| `Data.WorkerWithId` | src/main/java/data/Worker.java:55-65 | the explicit-id constructor keeps the id and every drafted field |
| `Data.WorkerCompareToNames` | src/main/java/data/Worker.java:139-142 | `Worker.compareTo` is 0 iff the names are equal, and antisymmetric |
| `Data.WorkerCompareToIgnoresOtherFields` | src/main/java/data/Worker.java:139-142 | the ordering reads nothing but the name |
| `Data.WorkerEqualsIff` | src/main/java/data/Worker.java:161-171 | with a birthday, `Worker.equals` holds iff the workers differ at most in the id and the location's name |
| `Data.WorkerEqualsReflexive` | src/main/java/data/Worker.java:161-171 | `equals` is true on the object itself, false on other classes, and ignores the id |
| `Commands.CommandEqualsIff` | src/main/java/commands/AbstractCommand.java:59-65 | `AbstractCommand.equals` compares the name and description only, across classes, and is symmetric |
| `Commands.StandardNamesDistinct` | src/main/java/Main.java:20-26 | no two of the sixteen command names are equal ignoring case |
| `Commands.StandardNameLength` | src/main/java/Main.java:20-26 | every command name has at least four chars, so none is empty |
| `Commands.CommandMap.constructor` | src/main/java/support/CommandControl.java:12 | a new `HashMap` is empty |
| `Commands.CommandMap.Put` | src/main/java/support/CommandControl.java:41-56 | `put` replaces any earlier value under the key and changes no other key |
| `Registry.RegisteredPrefix` | src/main/java/support/CommandControl.java:41-56 | each `put` adds one command under its own name to the map built so far |
| `Registry.RegisteredLookup` | src/main/java/support/CommandControl.java:41-56 | after the puts each key maps to a command with that name, and every command's name is a key |
| `Registry.LaterPutWins` | src/main/java/support/CommandControl.java:41-56 | a command not overwritten by a later one of the same name is the value under its name |
| `Registry.PutKindsComplete` | src/main/java/support/CommandControl.java:41-56 | the constructor puts every one of the sixteen command classes |
| `Registry.StandardRegistry` | src/main/java/Main.java:20-26 | with the commands `main` builds, each standard name maps to its class, every key is a standard name, and no two keys are equal ignoring case |
| `Registry.StandardRegistryKeys` | src/main/java/Main.java:20-26 | the map `main` builds has exactly the standard keys |
| `Registry.MatchingKey` | src/main/java/support/Console.java:73-80 | the key equal to the token ignoring case, and none iff no key is |
| `Registry.MatchingKeyIs` | src/main/java/support/Console.java:73-80 | any key equal to the token ignoring case is the one the lookup finds |
| `Registry.ScriptKeyIsExecuteScript` | src/main/java/commands/ExecuteScript.java:64 | only the key "execute_script" (in any case) holds the `ExecuteScript` command |
| `Registry.FindKey` | src/main/java/support/Console.java:74-78 | the key loop over `keySet()` returns the matching key |
| `Registry.CommandControl.constructor` | src/main/java/support/CommandControl.java:36-58 | the map holds the sixteen commands put in order, and `CollectionControl` is handed the same map object |
| `Registry.CommandControl.GetMapping` | src/main/java/support/CommandControl.java:65-67 | returns the one shared map |
| `Input.Stream.constructor` | src/main/java/support/CommunicationControl.java:33-35 | a `Scanner` over the given lines |
| `Input.Stream.NextLine` | src/main/java/support/CommunicationControl.java:81 | `nextLine` takes the first unread line, or throws `NoSuchElementException` when none is left |
| `Input.SuffixTransitive` | src/main/java/support/CommunicationControl.java:203-212 | reading in sequence leaves a suffix of a suffix, which is a suffix |
| `Input.ContainsOnlyDigitsOrLetters` | src/main/java/support/CommunicationControl.java:45-51 | true iff the text is non-empty and all digits (`onlyDigits`) or all ASCII letters |
| `Input.AllMatchIff` | src/main/java/support/CommunicationControl.java:45-51 | the char-by-char test agrees with the regular expression |
| `Input.ParseName` | src/main/java/support/CommunicationControl.java:81-83 | `setName` accepts the trimmed line iff it is non-empty and made of ASCII letters |
| `Input.ParseHeight` | src/main/java/support/CommunicationControl.java:111-115 | `setHeight` accepts `Long.parseLong` of the untrimmed line iff 0 < height ≤ 400 |
| `Input.HeightIsNotTrimmed` | src/main/java/support/CommunicationControl.java:111-112 | a height typed with a leading or trailing blank is refused |
| `Input.ParsePassport` | src/main/java/support/CommunicationControl.java:141-147 | `setPassportID` accepts the trimmed line iff it is exactly six digits |
| `Input.ParseBirthday` | src/main/java/support/CommunicationControl.java:173-177 | `setBirthday` accepts a valid `yyyy-MM-dd` date iff it is not after today |
| `Input.ParseInteger` | src/main/java/support/CommunicationControl.java:226-228 | the coordinate readers parse the trimmed, non-empty line as a 32-bit `int` |
| `Input.SalaryConversion` | src/main/java/support/CommunicationControl.java:290-293 | a salary is accepted iff it parses and is > 0; an unparsable non-empty line throws `NumberFormatException` past the catch |
| `Input.UpperCaseFixed` | src/main/java/data/Status.java:19-39 | upper-casing leaves a constant's name unchanged |
| `Input.ParsePosition` | src/main/java/support/CommunicationControl.java:398-399 | `choosePosition` finds the position whose name equals the trimmed line ignoring case, and fails iff there is none |
| `Input.ParseStatus` | src/main/java/support/CommunicationControl.java:431-432 | `chooseStatus` finds the status whose name equals the trimmed line ignoring case, and fails iff there is none |
| `Input.NonEmpty` | src/main/java/support/CommunicationControl.java:351-352 | `setLocation` refuses an empty trimmed line |
| `Input.LineReader` | src/main/java/support/CommunicationControl.java:76-98 | a reader only consumes input, and in script mode it takes at most one line and never escapes |
| `Input.ScriptReaderOneLine` | src/main/java/support/CommunicationControl.java:89-95 | in script mode a reader takes one line and succeeds iff that line converts (otherwise `finally` throws `InputException`) |
| `Input.FirstDecisive` | src/main/java/support/CommunicationControl.java:78-97 | the first line the reader does not refuse and retry |
| `Input.InteractiveReaderStopsAtFirstDecisive` | src/main/java/support/CommunicationControl.java:78-97 | interactively the reader retries refused lines and stops at the first line that converts or throws `NumberFormatException` past the catch; with no such line `NoSuchElementException` escapes |
| `Input.SalaryEscapes` | src/main/java/support/CommunicationControl.java:284-306 | interactively, a salary that is not a number ends the reading of a worker with `NumberFormatException`, and the lines after it stay unread |
| `Input.CoordinatesReader` | src/main/java/support/CommunicationControl.java:318-331 | `setCoordinates` reads x then y, only consuming input, and never escapes in script mode |
| `Input.Take` | src/main/java/support/CommunicationControl.java:351-353 | one `nextLine` and conversion: no line escapes; otherwise the first line is consumed and converts iff it parses |
| `Input.LocationX` | src/main/java/support/CommunicationControl.java:351-353 | the x line is trimmed, non-empty and a decimal |
| `Input.LocationY` | src/main/java/support/CommunicationControl.java:356-358 | the y line is trimmed, non-empty and a `long` |
| `Input.LocationZ` | src/main/java/support/CommunicationControl.java:361-363 | the z line is trimmed, non-empty and an `int` |
| `Input.LocationAttempt` | src/main/java/support/CommunicationControl.java:349-369 | one pass takes exactly four lines on success and at least one on failure |
| `Input.LocationAfterX` | src/main/java/support/CommunicationControl.java:355-369 | after x, a pass takes exactly three lines on success |
| `Input.LocationReader` | src/main/java/support/CommunicationControl.java:340-382 | `setLocation` only consumes input and never escapes in script mode |
| `Input.LocationStopsAtFirstBadLine` | src/main/java/support/CommunicationControl.java:351-352 | in script mode an empty x line fails the pass at once and leaves the other three lines unread |
| `Input.PersonReader` | src/main/java/support/CommunicationControl.java:203-212 | `setPerson` only consumes input and turns every failure into `InputException` |
| `Input.DraftReader` | src/main/java/commands/AddElement.java:38-50 | reading a worker never adds lines, and never escapes in script mode |
| `Input.ScriptLineGot` | src/main/java/support/CommunicationControl.java:76-98 | in script mode a successful reader took exactly the first line, and that line converted |
| `Input.ScriptLocationGot` | src/main/java/support/CommunicationControl.java:340-382 | in script mode a successful location took exactly four lines |
| `Input.ScriptCoordinatesGot` | src/main/java/support/CommunicationControl.java:318-331 | in script mode successful coordinates took exactly two lines |
| `Input.ScriptPersonGot` | src/main/java/support/CommunicationControl.java:203-212 | in script mode a successful person took exactly seven lines |
| `Input.ScriptDraftLines` | src/main/java/commands/AddElement.java:38-50 | in script mode a whole worker takes exactly 13 lines of the data file |
| `Input.ConfirmReader` | src/main/java/support/CommunicationControl.java:454-463 | `confirm` is true without reading in script mode; interactively it reads one line and is true iff it trims to "y" |
| `Input.CommunicationControl.constructor` | src/main/java/support/CommunicationControl.java:33-35 | reads from `System.in`, interactive mode, flag down |
| `Input.CommunicationControl.SetUnsetLoop` | src/main/java/support/CommunicationControl.java:56-58 | flips the mode |
| `Input.CommunicationControl.ChangeScanner` | src/main/java/support/CommunicationControl.java:65-67 | later reads come from the given input |
| `Input.CommunicationControl.ReadLine` | src/main/java/support/CommunicationControl.java:78-97 | the retry loop with its `finally` computes `LineReader` in the current mode, and leaves the flag down |
| `Input.CommunicationControl.SetName` | src/main/java/support/CommunicationControl.java:76-98 | reads as `LineReader` with `ParseName` |
| `Input.CommunicationControl.SetHeight` | src/main/java/support/CommunicationControl.java:107-128 | reads as `LineReader` with `ParseHeight` |
| `Input.CommunicationControl.SetPassportID` | src/main/java/support/CommunicationControl.java:137-160 | reads as `LineReader` with `ParsePassport` |
| `Input.CommunicationControl.SetBirthday` | src/main/java/support/CommunicationControl.java:169-194 | reads as `LineReader` with `ParseBirthday` against today |
| `Input.CommunicationControl.SetCoodrinateX` | src/main/java/support/CommunicationControl.java:220-245 | reads as `LineReader` with `ParseInteger` |
| `Input.CommunicationControl.SetCoodrinateY` | src/main/java/support/CommunicationControl.java:253-276 | reads as `LineReader` with `ParseInteger` |
| `Input.CommunicationControl.SetSalary` | src/main/java/support/CommunicationControl.java:284-310 | reads as `LineReader` with `SalaryConversion` |
| `Input.CommunicationControl.ChoosePosition` | src/main/java/support/CommunicationControl.java:390-414 | reads as `LineReader` with `ParsePosition` |
| `Input.CommunicationControl.ChooseStatus` | src/main/java/support/CommunicationControl.java:423-447 | reads as `LineReader` with `ParseStatus` |
| `Input.CommunicationControl.SetCoordinates` | src/main/java/support/CommunicationControl.java:318-331 | reads as `CoordinatesReader` |
| `Input.CommunicationControl.SetLocation` | src/main/java/support/CommunicationControl.java:340-382 | reads as `LocationReader` |
| `Input.CommunicationControl.LocationRound` | src/main/java/support/CommunicationControl.java:347-381 | one turn of the loop either returns the reader's result or consumes input and leaves the same result to come |
| `Input.CommunicationControl.TryLocation` | src/main/java/support/CommunicationControl.java:349-369 | the `try` body reads as `LocationAttempt` |
| `Input.CommunicationControl.TakeLine` | src/main/java/support/CommunicationControl.java:351-353 | one `nextLine` and conversion, as `Take` |
| `Input.CommunicationControl.SetPerson` | src/main/java/support/CommunicationControl.java:203-212 | reads as `PersonReader` |
| `Input.CommunicationControl.ReadDraft` | src/main/java/commands/AddElement.java:38-50 | reads name, coordinates, salary, position, status and person as `DraftReader` |
| `Input.CommunicationControl.Confirm` | src/main/java/support/CommunicationControl.java:454-463 | reads as `ConfirmReader` |
| `Input.CommunicationControl.SetEnotherInfo` | src/main/java/support/CommunicationControl.java:471-475 | the next line trimmed, or `NoSuchElementException` |
| `Store.InsertByName` | src/main/java/support/CollectionControl.java:77-79 | inserting adds exactly the one worker |
| `Store.StableSortByName` | src/main/java/support/CollectionControl.java:77-79 | `Collections.sort` yields a permutation of the list |
| `Store.InsertKeepsSorted` | src/main/java/support/CollectionControl.java:77-79 | insertion keeps a list sorted by name |
| `Store.SortIsSorted` | src/main/java/support/CollectionControl.java:77-79 | the sorted list is non-decreasing under `Worker.compareTo` |
| `Store.SortIsStable` | src/main/java/support/CollectionControl.java:77-79 | workers with equal names keep their relative order |
| `Store.SortOfSorted` | src/main/java/support/CollectionControl.java:77-79 | a sorted list is left unchanged |
| `Store.SortIdempotent` | src/main/java/support/CollectionControl.java:77-79 | sorting twice is sorting once |
| `Store.WithName` | src/main/java/support/CollectionControl.java:77-79 | the workers with one name, in list order |
| `Store.Survivors` | src/main/java/support/CollectionControl.java:87-89 | `removeIf` never adds workers |
| `Store.SurvivorsMembers` | src/main/java/support/CollectionControl.java:87-89 | a worker survives iff it was in the list and the pivot's name is not greater than its own |
| `Store.SurvivorsConcat` | src/main/java/support/CollectionControl.java:87-89 | removal works element by element, so survivors keep their order |
| `Store.SurvivorsCount` | src/main/java/support/CollectionControl.java:87-89 | survivors and removed workers together are the whole list |
| `Store.Removed` | src/main/java/support/CollectionControl.java:87-89 | every removed worker's name is below the pivot's |
| `Store.StatusAbove` | src/main/java/support/CollectionControl.java:120-124 | the filter never adds workers |
| `Store.StatusAboveMembers` | src/main/java/support/CollectionControl.java:120-124 | a worker is listed iff its status ordinal is strictly greater |
| `Store.StatusAboveConcat` | src/main/java/support/CollectionControl.java:120-124 | the filter keeps list order |
| `Store.StatusAboveExtremes` | src/main/java/support/CollectionControl.java:120-124 | nothing is above PROBATION; above HIRED is everyone not HIRED |
| `Store.CountStatus` | src/main/java/support/CollectionControl.java:135-142 | a count is positive iff some worker has the status |
| `Store.CountsSumToSize` | src/main/java/support/CollectionControl.java:135-142 | the groups' counts add up to the list's size |
| `Store.MinSalary` | src/main/java/support/CollectionControl.java:207-213 | the least salary of the list, which some worker has |
| `Store.Renumbered` | src/main/java/support/CollectionControl.java:237-241 | element i gets id i+1, and nothing else changes |
| `Store.RenumberedIds` | src/main/java/support/CollectionControl.java:237-241 | the ids become exactly 1..N, and renumbering again changes nothing |
| `Store.CollectionControl.constructor` | src/main/java/support/CollectionControl.java:39-43 | an empty list, counter 0, no command map yet |
| `Store.CollectionControl.NewWorker` | src/main/java/data/Worker.java:32-42 | the auto-id constructor takes `++idCounter` as the id and keeps the drafted fields |
| `Store.CollectionControl.GetMappingOfCommands` | src/main/java/support/CollectionControl.java:50-52 | stores the map object it is handed |
| `Store.CollectionControl.SendCommandMap` | src/main/java/support/CollectionControl.java:60-62 | returns that map object |
| `Store.CollectionControl.Clear` | src/main/java/support/CollectionControl.java:68-72 | empties the list and changes nothing else: `Worker.idCounter` is reset by the `clear` command, not here |
| `Store.CollectionControl.AddToCollection` | src/main/java/support/CollectionControl.java:197-199 | appends the worker |
| `Store.CollectionControl.Sort` | src/main/java/support/CollectionControl.java:77-79 | the list becomes its stable sort by name: sorted and a permutation |
| `Store.CollectionControl.RemoveGreater` | src/main/java/support/CollectionControl.java:87-89 | keeps exactly the workers whose name is not below the pivot's, in order |
| `Store.CollectionControl.FilterGreaterThanStatus` | src/main/java/support/CollectionControl.java:114-129 | fails iff the upper-cased line names no status; otherwise lists the workers of a strictly greater status, in order |
| `Store.CollectionControl.GropByStatus` | src/main/java/support/CollectionControl.java:135-142 | one group per status that occurs, with its count |
| `Store.CollectionControl.RemoveElementByID` | src/main/java/support/CollectionControl.java:174-180 | removes position `id` iff it is inside the list, else changes nothing |
| `Store.CollectionControl.AddIfSmallerSalary` | src/main/java/support/CollectionControl.java:207-213 | appends iff the list is empty or the salary is below the minimum |
| `Store.CollectionControl.UpdateByID` | src/main/java/support/CollectionControl.java:220-231 | replaces position id-1 with a worker read from input (keeping that id), or changes nothing; a reader's `InputException` is caught here, while the salary's `NumberFormatException` and any other exception leave the method |
| `Store.CollectionControl.UpdateAllIDs` | src/main/java/support/CollectionControl.java:237-241 | renumbers the list |
| `Handlers.NoArgument` | src/main/java/commands/Show.java:19-27 | an output-only command changes nothing and ends `Done` iff the argument is empty, else `WrongArgumentsException` |
| `Handlers.AddElementAppendsOne` | src/main/java/commands/AddElement.java:38-50 | `addElement` refuses an argument; it succeeds iff a worker is read, and then appends exactly that worker with id `++idCounter` |
| `Handlers.ScriptedAddElement` | src/main/java/commands/AddElement.java:38-50 | in a script `addElement` never aborts the replay: on success it takes exactly 13 data lines, otherwise it reports bad data and leaves the list and the counter alone |
| `Handlers.AddIfMinCounterAdvances` | src/main/java/commands/AddElementIfMin.java:38-52 | the candidate uses up an id whether or not it is added, and is added iff its salary is below the minimum |
| `Handlers.AddIfMinFailureKeeps` | src/main/java/commands/AddElementIfMin.java:38-52 | without a worker read, neither the list nor the counter changes |
| `Handlers.ClearAfterConfirm` | src/main/java/commands/Clear.java:35-46 | `clear` refuses an argument, empties the list in a script, and interactively only after "y" |
| `Handlers.RemoveByIdRemovesAt` | src/main/java/commands/RemoveElementByID.java:33-46 | a valid zero-based index removes that element, and the rest are renumbered 1..N |
| `Handlers.RemoveByIdOtherwise` | src/main/java/commands/RemoveElementByID.java:33-46 | any other argument changes nothing and does not succeed |
| `Handlers.RemoveGreaterKeeps` | src/main/java/commands/RemoveGreater.java:38-52 | the survivors of the pivot, renumbered 1..N |
| `Handlers.RemoveGreaterFailureKeeps` | src/main/java/commands/RemoveGreater.java:38-52 | without a pivot, neither the list nor the counter changes |
| `Handlers.UpdateByIdKeepsSize` | src/main/java/commands/UpdateByID.java:21-33 | `update_by_id` never changes the list's size or the counter |
| `Handlers.UpdateByIdChangesOnlyAt` | src/main/java/commands/UpdateByID.java:21-33 | only position id-1 can change, and it then holds id i+1 |
| `Handlers.UpdateByIdAbortedIff` | src/main/java/commands/UpdateByID.java:21-33 | `update_by_id` ends the loop exactly when the input runs out while a worker is read, or the worker was read for an id below 1; a salary that is not a number is reported and only the input changes |
| `Handlers.UpdateByIdUnparsableSalary` | src/main/java/commands/UpdateByID.java:21-33 | interactively, `update_by_id 1` with the lines "Bob", "1", "1", "abc" is reported and keeps the list, while `addElement` on the same lines ends the loop |
| `Handlers.UpdateByIdMissingStillDone` | src/main/java/commands/UpdateByID.java:21-33 | an id beyond the list changes nothing yet reports success |
| `Handlers.FilterReadsOneLine` | src/main/java/commands/FilterGreaterStatus.java:35-51 | the filter never changes the list; with no argument it reads one line and lists the workers above that status |
| `Handlers.SortTwiceIsOnce` | src/main/java/commands/Sort.java:27-29 | `sort` yields a sorted permutation and is idempotent |
| `Handlers.PrintPersonsThrowsIff` | src/main/java/support/CollectionControl.java:159-167 | sorting the persons changes nothing, and throws `NullPointerException` iff two workers' birthdays compare with a null one |
| `Handlers.AddElement` | src/main/java/commands/AddElement.java:38-50 | computes `AddElementEffect` on the state |
| `Handlers.AddElementRead` | src/main/java/commands/AddElement.java:44-46 | the part after the worker is read |
| `Handlers.AddElementIfMin` | src/main/java/commands/AddElementIfMin.java:38-52 | computes `AddIfMinEffect` on the state |
| `Handlers.AddIfMinRead` | src/main/java/commands/AddElementIfMin.java:44-47 | the part after the candidate is read |
| `Handlers.Clear` | src/main/java/commands/Clear.java:35-46 | computes `ClearEffect` on the state |
| `Handlers.RemoveElementByID` | src/main/java/commands/RemoveElementByID.java:33-46 | computes `RemoveByIdEffect` on the state |
| `Handlers.RemoveGreater` | src/main/java/commands/RemoveGreater.java:38-52 | computes `RemoveGreaterEffect` on the state |
| `Handlers.RemoveGreaterRead` | src/main/java/commands/RemoveGreater.java:44-47 | the part after the pivot is read |
| `Handlers.UpdateByID` | src/main/java/commands/UpdateByID.java:21-33 | computes `UpdateByIdEffect` on the state, in which a `NumberFormatException` from the argument or from `setSalary` is caught and reported |
| `Handlers.FilterGreaterStatus` | src/main/java/commands/FilterGreaterStatus.java:35-51 | computes `FilterEffect` on the state |
| `Handlers.Sort` | src/main/java/commands/Sort.java:27-29 | computes `SortEffect` on the state |
| `Handlers.PrintFieldOfPerson` | src/main/java/commands/PrintFieldOfPerson.java:30-37 | the loop over the persons computes `PrintPersonsEffect` |
| `Handlers.Execute` | src/main/java/support/Console.java:56 | `execute(argument)` of each command kind but `execute_script` computes `ExecuteEffect` |
| `Script.FileSystem.Delete` | src/main/java/commands/ExecuteScript.java:84-85 | `File.delete` removes that file and no other |
| `Script.ScriptArgs` | src/main/java/commands/ExecuteScript.java:118 | `(line.trim() + " ").split(" ", 2)`: two parts, the first without spaces, together the trimmed line plus a space |
| `Script.CommandEntry` | src/main/java/commands/ExecuteScript.java:123 | a command line is written as the trimmed line plus a space |
| `Script.SplitSizes` | src/main/java/commands/ExecuteScript.java:115-125 | every script line lands in exactly one of the two files |
| `Script.SplitConcat` | src/main/java/commands/ExecuteScript.java:115-125 | both files keep the script's order |
| `Script.SplitMembers` | src/main/java/commands/ExecuteScript.java:119-124 | a command line's entry is in the command file; the data file holds exactly the other lines |
| `Script.SplitSnoc` | src/main/java/commands/ExecuteScript.java:115-124 | one more line is appended to exactly one file |
| `Script.SplitIsCaseSensitive` | src/main/java/commands/ExecuteScript.java:64 | "CLEAR" is put in the data file, though replaying it would match the key "clear" |
| `Script.ClassifyLine` | src/main/java/commands/ExecuteScript.java:118-123 | one line's test against the command map and the text written for it |
| `Script.FileProcessor` | src/main/java/commands/ExecuteScript.java:107-130 | the files after the split pass, and nothing changes when the script is missing |
| `Script.ReplayStep` | src/main/java/commands/ExecuteScript.java:60-75 | the replay never runs `execute_script`, and fails only on a line that splits into nothing |
| `Script.EffectsRunAsExecute` | src/main/java/commands/ExecuteScript.java:72 | the replay runs commands as the console does |
| `Script.NoNestedScripts` | src/main/java/commands/ExecuteScript.java:64 | a line naming `execute_script`, in any case, is skipped |
| `Script.UnknownLinesSkipped` | src/main/java/commands/ExecuteScript.java:63-75 | a line that names no command changes nothing |
| `Script.OneWord` | src/main/java/commands/ExecuteScript.java:61-70 | a word alone gets the argument "" |
| `Script.TwoWords` | src/main/java/commands/ExecuteScript.java:61-67 | two words split by one space: the second is the argument |
| `Script.DoubleSpace` | src/main/java/commands/ExecuteScript.java:61-70 | two spaces between the words make three parts, so the argument is "" |
| `Script.ScriptCleansUp` | src/main/java/commands/ExecuteScript.java:79-92 | unless a command exits, the reader is `System.in` again with its lines untouched, both work files are gone, and no other file changed |
| `Script.MissingScript` | src/main/java/commands/ExecuteScript.java:97-98 | a missing script with no stale work files changes nothing and reports an I/O error |
| `Script.ScriptEffectRuns` | src/main/java/commands/ExecuteScript.java:52-92 | the effect once the split is done and the replay has run |
| `Script.DecideStep` | src/main/java/commands/ExecuteScript.java:60-70 | the loop's decision for one command-file line |
| `Script.RunCommand` | src/main/java/commands/ExecuteScript.java:72 | `commandMap.get(key).execute(arg)` as `Execute` |
| `Script.ReplayFirst` | src/main/java/commands/ExecuteScript.java:59-75 | one turn of the replay loop: it stops with the replay's outcome, or what is left to replay is the rest |
| `Script.ReplayCommands` | src/main/java/commands/ExecuteScript.java:55-79 | the replay loop computes `Replay` over the command file |
| `Script.RunScript` | src/main/java/commands/ExecuteScript.java:52-76 | script mode on, the reader bound to the data file, then the replay |
| `Script.Restore` | src/main/java/commands/ExecuteScript.java:80-85 | the mode flipped back, the reader back to `System.in`, both work files deleted |
| `Script.ExecuteScript` | src/main/java/commands/ExecuteScript.java:42-100 | `execute(argument)` computes `ScriptEffect`; unless it exits, the reader is `System.in` again |
| `XmlParser.Parsed` | src/main/java/support/ParserXml.java:151-155 | a value only comes from a tag that is present and parses |
| `XmlParser.AcceptedIsAdmissible` | src/main/java/support/ParserXml.java:76-92 | an accepted worker has a letters-only name, a positive salary, x ≤ 468, y > -922, height ≤ 350 and a six-char passport, all taken from its element |
| `XmlParser.CoordinatesRule` | src/main/java/support/ParserXml.java:101-108 | coordinates are accepted iff x and y parse as `int`, x ≤ 468 and y > -922 |
| `XmlParser.LocationUnchecked` | src/main/java/support/ParserXml.java:135-142 | a location is accepted iff its numbers parse; the name is not checked |
| `XmlParser.PersonRule` | src/main/java/support/ParserXml.java:117-127 | a person is accepted iff the height parses and is ≤ 350 and the passport has six chars |
| `XmlParser.NoDigitCheckNoLowerBound` | src/main/java/support/ParserXml.java:121-124 | the file accepts a negative height and a passport that is not digits |
| `XmlParser.BirthdayNeverRefuses` | src/main/java/support/ParserXml.java:163-176 | a bad or future birthday does not refuse the worker; it is stored as null |
| `XmlParser.EnumsIgnoreCase` | src/main/java/support/ParserXml.java:84-85 | position and status are read ignoring case |
| `XmlParser.FirstFailure` | src/main/java/support/ParserXml.java:58-60 | the first worker element that fails to parse |
| `XmlParser.ParsedAllOrNothing` | src/main/java/support/ParserXml.java:47-67 | the list is returned iff every element parses (else null), with ids from `++idCounter` in order, and the counter moves once per element parsed before any failure |
| `XmlParser.ParserXml.constructor` | src/main/java/support/ParserXml.java:37-39 | keeps the file name |
| `XmlParser.ParserXml.ParseWorkersFromXml` | src/main/java/support/ParserXml.java:47-67 | null for an unreadable file; otherwise `ParsedWorkers` |
| `XmlParser.ParserXml.ParseElements` | src/main/java/support/ParserXml.java:56-61 | the loop over the elements computes `ParsedWorkers` |
| `Files.Closing` | src/main/java/support/FileControl.java:109 | `writeEndDocument` emits one end event per open element |
| `Files.XmlStreamWriter.constructor` | src/main/java/support/FileControl.java:57 | a writer with nothing written |
| `Files.XmlStreamWriter.WriteStartDocument` | src/main/java/support/FileControl.java:58 | appends the document start |
| `Files.XmlStreamWriter.WriteStartElement` | src/main/java/support/FileControl.java:59 | appends a start event and opens the element |
| `Files.XmlStreamWriter.WriteCharacters` | src/main/java/support/FileControl.java:63 | appends a text event |
| `Files.XmlStreamWriter.WriteEndElement` | src/main/java/support/FileControl.java:64 | closes the innermost open element |
| `Files.XmlStreamWriter.WriteEndDocument` | src/main/java/support/FileControl.java:109 | closes every open element, innermost first, and ends the document |
| `Files.LeafEvents` | src/main/java/support/FileControl.java:62-64 | a one-text element writes start, text, end |
| `Files.NodeNests` | src/main/java/support/FileControl.java:62-104 | every complete element closes everything it opens |
| `Files.WorkerStaysOpen` | src/main/java/support/FileControl.java:61-106 | one pass of the loop closes all its children but leaves the `worker` element open |
| `Files.WorkersNest` | src/main/java/support/FileControl.java:60-107 | after the loop the root and one `worker` per list element are open |
| `Files.PrologueNests` | src/main/java/support/FileControl.java:58-59 | the document start and root leave the root open |
| `Files.ClosingNests` | src/main/java/support/FileControl.java:109 | closing every open element leaves none open |
| `Files.SavedDocumentNests` | src/main/java/support/FileControl.java:55-112 | the saved file is well nested and leaves nothing open |
| `Files.NodeCounts` | src/main/java/support/FileControl.java:62-104 | an element writes its tags in document order, one end per start, and its texts in order |
| `Files.LocationShape` | src/main/java/support/FileControl.java:92-104 | a location writes x, y, z and name, in that order |
| `Files.PersonShape` | src/main/java/support/FileControl.java:82-105 | a person writes birthday, height, passportID and location, in that order |
| `Files.CoordinatesShape` | src/main/java/support/FileControl.java:65-72 | coordinates write x then y |
| `Files.WorkerShape` | src/main/java/support/FileControl.java:61-106 | each worker writes 17 start events but 16 end events, its fields in order |
| `Files.WriteLeaf` | src/main/java/support/FileControl.java:62-64 | writes one leaf element |
| `Files.WriteCoordinates` | src/main/java/support/FileControl.java:65-72 | writes the coordinates element |
| `Files.WriteLocation` | src/main/java/support/FileControl.java:92-104 | writes the location element |
| `Files.WritePerson` | src/main/java/support/FileControl.java:82-105 | writes the person element |
| `Files.WriteWorker` | src/main/java/support/FileControl.java:61-106 | one pass of the loop, leaving `worker` open |
| `Files.FileControl.constructor` | src/main/java/support/FileControl.java:34-37 | keeps the command-line arguments |
| `Files.FileControl.WriteToFile` | src/main/java/support/FileControl.java:55-112 | writes exactly `SavedDocument(workers)` and leaves nothing open |
| `Files.FileControl.ReadXmlFile` | src/main/java/support/FileControl.java:117-139 | returns `ReadEffect`: the parsed list and the new counter |
| `Files.ArgumentCount` | src/main/java/support/FileControl.java:119-122 | any number of arguments but one gives null and leaves the counter alone; one argument parses that file |
| `Terminal.LineParts` | src/main/java/support/Console.java:54-55 | the split always has two parts (so the length check never fires): the token is the trimmed line up to its first space, and the argument is the rest plus a space, or "" |
| `Terminal.SpaceSplitUnique` | src/main/java/support/Console.java:54 | a text splits only one way into a space-free word, a space and the rest |
| `Terminal.BlankLineParts` | src/main/java/support/Console.java:54 | a blank line gives the empty token and argument |
| `Terminal.ChosenIff` | src/main/java/support/Console.java:73-80 | `chooseCommand` finds the command under the key equal to the token ignoring case, and throws `InputException` iff no key is |
| `Terminal.AnyCaseFindsCommand` | src/main/java/support/Console.java:73-80 | a command name typed in any case finds that command |
| `Terminal.EmptyTokenFindsNothing` | src/main/java/support/Console.java:73-80 | a blank line finds no command |
| `Terminal.ExecuteConsumes` | src/main/java/support/Console.java:56 | a command returning normally never adds input lines |
| `Terminal.ReadingConsumes` | src/main/java/commands/AddElement.java:38-50 | the commands that read a worker leave at most the lines the reading left |
| `Terminal.Dispatch` | src/main/java/support/Console.java:56 | unless it exits, a command consumes input and never adds any |
| `Terminal.BlankLineSkipped` | src/main/java/support/Console.java:57-58 | a blank line is reported and skipped |
| `Terminal.UnknownLinesChangeNothing` | src/main/java/support/Console.java:51-61 | lines that name no command leave the collection, the counter and the files as they were |
| `Terminal.ExhaustedMeansAllRead` | src/main/java/support/Console.java:51-61 | the loop runs out of input only once every line is read |
| `Terminal.ExitEndsSession` | src/main/java/commands/Exit.java:28-36 | `exit`, in any case and alone, ends the program and changes nothing else |
| `Terminal.ExitLineParts` | src/main/java/support/Console.java:54 | `exit` alone on a line splits into the word and "" |
| `Terminal.ExitWithArgumentContinues` | src/main/java/commands/Exit.java:28-36 | `exit` with an argument is refused and the loop goes on |
| `Terminal.SkipStep` | src/main/java/support/Console.java:56-58 | one turn on a line that names no command |
| `Terminal.RunStep` | src/main/java/support/Console.java:56 | one turn on a line that names a command |
| `Terminal.LoadedNeedsOneArgument` | src/main/java/support/Console.java:43-48 | without exactly one command-line argument the collection starts as it was |
| `Terminal.Console.constructor` | src/main/java/support/Console.java:30-36 | keeps the scanner and the three controllers |
| `Terminal.Console.ChooseCommand` | src/main/java/support/Console.java:73-80 | the lookup loop computes `Chosen` |
| `Terminal.Console.LoadWorkers` | src/main/java/support/Console.java:43-48 | appends the workers read from the file, in order, and the counter is as the parser left it |
| `Terminal.Console.AddAll` | src/main/java/support/Console.java:44-48 | appends each worker in order |
| `Terminal.Console.Perform` | src/main/java/support/Console.java:56 | executing the chosen command computes `Dispatch`, and unless it exits the reader stays `System.in` in interactive mode |
| `Terminal.Console.Turn` | src/main/java/support/Console.java:52-60 | one turn of the loop either ends the session as `Session` says or leaves the same session to come on less input |
| `Terminal.Console.Interactive` | src/main/java/support/Console.java:41-63 | `interactive()` loads the file, then runs `Session` to its end |

## Left out

- Output: every message printed to the console, `show`, `info`, `help`, `toString` and `hashCode`. The output-only commands are modelled only by their argument checks and by the exception `print_field_ascending_person` can throw.
- `info`'s initialisation time, `Worker.creationDate` and `LocalDate.now()`: clocks are left out. Today's date is a constant parameter.
- Floating point: salaries and location x are exact decimals (`real`). `parseDouble`/`parseFloat` cover signed decimals with an optional fraction and an optional type suffix `d`, `D`, `f` or `F`. Exponents, `NaN`, `Infinity`, hexadecimal forms and rounding to `float`/`double` are left out.
- Strings: `trim`, `toUpperCase` and `equalsIgnoreCase` are modelled on ASCII letters. Unicode case mapping is left out.
- XML: parsing, DOM navigation, escaping and encodings are left out. A file that reads as XML is given as its worker elements, each as the texts of its tags. `writeToFile` is modelled as the events handed to the `XMLStreamWriter`, and `String.valueOf` of each value is kept as the typed value.
- `FileControl.checkFilePermissions` is not part of this model. A file is readable iff it is present in the file system map.
- `saveCollection` writing the file: `save` is modelled by its argument check. The write is `writeToFile`, but its `IOException`/`XMLStreamException` (rethrown as `RuntimeException`) and the trailing space on the argument are left out.
- `flush` and `close` of writers and streams are left out.
- `Input.LineReader`: interactively, `setHeight`, `setPassportID`, `setBirthday`, `setCoodrinateY`, `choosePosition` and `chooseStatus` catch the `NoSuchElementException` thrown at the end of input and would retry forever. The model ends them with `Escaped`, as for the other readers.
- `Registry.MatchingKey`: `HashMap` iteration order is left out. Lookups are stated for maps whose keys are distinct ignoring case, which is proved for the sixteen standard names.
- `Script.ExecuteScript`: it is stated for a reader bound to `System.in`, since only the console runs it; the replay skips `execute_script`.
- `Data.ParseLocalDate`: years of five or more digits, which the `yyyy` pattern also accepts with a sign (`+12345-01-01`), are refused. Such a date always lies after today, so the birthday reader refuses it and the XML parser stores `null` either way, just as for a text that does not parse.
- Two `Scanner`s on `System.in`: after `execute_script`, `changeScanner(System.in)` gives `CommunicationControl` a new `Scanner`, while the console keeps the one `Main` made. Each buffers input on its own, so with piped input one can hold lines the other should read. The model treats both as one sequence of lines (`Terminal.Console.Perform`, `Script.ExecuteScript`), and that buffering is not modelled.
- `Data.Person.CompareTo`: `LocalDateTime` is modelled as a date at the start of a day.
- Concurrency is not modelled; the program is single-threaded.

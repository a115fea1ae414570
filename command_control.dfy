/**
 * CommandControl: registers the sixteen commands in a HashMap under their names and
 * hands the same map to CollectionControl.
 */
module Registry {
  import opened JavaLang
  import opened Commands
  import opened Store

  /** The map after `put(c.getName(), c)` for every command of `cs`, in order. */
  function Registered(cs: seq<Command>): (m: map<string, Command>)
  {
    if cs == [] then map[]
    else Registered(cs[..|cs| - 1])[cs[|cs| - 1].name := cs[|cs| - 1]]
  }

  /** Putting the k-th command after the first k. */
  lemma RegisteredPrefix(cs: seq<Command>, k: nat)
    requires k < |cs|
    ensures Registered(cs[..k + 1]) == Registered(cs[..k])[cs[k].name := cs[k]]
  {
    assert cs[..k + 1][..k] == cs[..k];
  }

  /**
   * Every command is stored under its own name, the keys are exactly those names, and
   * a lookup returns one of the registered commands whose name is the key.
   */
  lemma {:induction false} RegisteredLookup(cs: seq<Command>)
    ensures forall key :: key in Registered(cs) ==> Registered(cs)[key].name == key && Registered(cs)[key] in cs
    ensures forall c :: c in cs ==> c.name in Registered(cs)
  {
    if cs != [] {
      var init, last := cs[..|cs| - 1], cs[|cs| - 1];
      RegisteredLookup(init);
      assert cs == init + [last];
    }
  }

  /**
   * A later put under the same name replaces an earlier one: a command stays stored
   * when no later command shares its name, so the last one put is always stored.
   */
  lemma {:induction false} LaterPutWins(cs: seq<Command>, i: nat)
    requires i < |cs|
    requires forall j :: i < j < |cs| ==> cs[j].name != cs[i].name
    ensures cs[i].name in Registered(cs) && Registered(cs)[cs[i].name] == cs[i]
    decreases |cs|
  {
    var init := cs[..|cs| - 1];
    if i < |cs| - 1 {
      assert init[i] == cs[i];
      LaterPutWins(init, i);
    }
  }

  /** The commands in the order the constructor puts them; saveCollection comes last. */
  function PutOrder(addElement: Command, addElementIfMin: Command, clear: Command,
                    executeScript: Command, exit: Command, filterGreaterStatus: Command,
                    groupByStatus: Command, help: Command, info: Command, printFieldOfPerson: Command,
                    removeElementByID: Command, removeGreater: Command,
                    saveCollection: Command, show: Command, sort: Command, updateByID: Command): seq<Command>
  {
    [addElement, addElementIfMin, clear, executeScript, exit, filterGreaterStatus, groupByStatus,
     help, info, printFieldOfPerson, removeElementByID, removeGreater, show, sort, updateByID,
     saveCollection]
  }

  /** The command classes in the order the constructor puts them. */
  const PutKinds: seq<Kind> := [AddElement, AddIfMin, Clear, ExecuteScript, Exit, FilterGreaterStatus,
    GroupByStatus, Help, Info, PrintFieldOfPerson, RemoveElementById, RemoveGreater, Show, Sort,
    UpdateById, SaveCollection]

  /** Every command class occurs in the put order. */
  lemma PutKindsComplete(k: Kind)
    ensures k in PutKinds
  {
    match k
    case AddElement => assert PutKinds[0] == AddElement;
    case AddIfMin => assert PutKinds[1] == AddIfMin;
    case Clear => assert PutKinds[2] == Clear;
    case ExecuteScript => assert PutKinds[3] == ExecuteScript;
    case Exit => assert PutKinds[4] == Exit;
    case FilterGreaterStatus => assert PutKinds[5] == FilterGreaterStatus;
    case GroupByStatus => assert PutKinds[6] == GroupByStatus;
    case Help => assert PutKinds[7] == Help;
    case Info => assert PutKinds[8] == Info;
    case PrintFieldOfPerson => assert PutKinds[9] == PrintFieldOfPerson;
    case RemoveElementById => assert PutKinds[10] == RemoveElementById;
    case RemoveGreater => assert PutKinds[11] == RemoveGreater;
    case Show => assert PutKinds[12] == Show;
    case Sort => assert PutKinds[13] == Sort;
    case UpdateById => assert PutKinds[14] == UpdateById;
    case SaveCollection => assert PutKinds[15] == SaveCollection;
  }

  /**
   * The commands as Main passes them, in put order: one instance of each command class,
   * named as that class names itself (the descriptions play no part in the registry).
   */
  predicate Wired(cs: seq<Command>)
  {
    |cs| == 16 && forall i :: 0 <= i < 16 ==> cs[i].kind == PutKinds[i] && cs[i].name == StandardName(PutKinds[i])
  }

  /** No two keys of the map are equal ignoring case, so a case-insensitive lookup finds at most one. */
  predicate KeysDistinctIgnoringCase(m: map<string, Command>)
  {
    forall a, b :: a in m && b in m && EqualsIgnoreCase(a, b) ==> a == b
  }

  /**
   * The program's registry holds every command class under its own name, each key is
   * the name of the class stored under it, and no two keys are equal ignoring case.
   */
  lemma StandardRegistry(cs: seq<Command>)
    requires Wired(cs)
    ensures forall k: Kind :: StandardName(k) in Registered(cs) && Registered(cs)[StandardName(k)].kind == k
    ensures forall key :: key in Registered(cs) ==> key == StandardName(Registered(cs)[key].kind)
    ensures KeysDistinctIgnoringCase(Registered(cs))
  {
    var m := Registered(cs);
    RegisteredLookup(cs);
    forall key | key in m ensures key == StandardName(m[key].kind) {
      var i :| 0 <= i < |cs| && cs[i] == m[key];
    }
    forall k: Kind ensures StandardName(k) in m && m[StandardName(k)].kind == k {
      PutKindsComplete(k);
      var i :| 0 <= i < 16 && PutKinds[i] == k;
      assert cs[i] in cs;
      var c := m[StandardName(k)];
      assert c.name == StandardName(k) && StandardName(k) == StandardName(c.kind);
      StandardNamesDistinct(k, c.kind);
    }
    forall a, b | a in m && b in m && EqualsIgnoreCase(a, b) ensures a == b {
      StandardNamesDistinct(m[a].kind, m[b].kind);
    }
  }

  /**
   * A registry as the program builds it: every key is the name of the command class
   * stored under it, and no two keys are equal ignoring case.
   */
  predicate StandardKeys(m: map<string, Command>)
  {
    KeysDistinctIgnoringCase(m) && forall key :: key in m ==> key == StandardName(m[key].kind)
  }

  lemma StandardRegistryKeys(cs: seq<Command>)
    requires Wired(cs)
    ensures StandardKeys(Registered(cs))
  {
    StandardRegistry(cs);
  }

  /** The key of `m` equal to `token` ignoring case, if there is one; there is at most one. */
  function MatchingKey(m: map<string, Command>, token: string): (r: Option<string>)
    requires KeysDistinctIgnoringCase(m)
    ensures r.Some? ==> r.value in m && EqualsIgnoreCase(r.value, token)
    ensures r.None? <==> forall key :: key in m ==> !EqualsIgnoreCase(key, token)
  {
    if exists key :: key in m && EqualsIgnoreCase(key, token) then
      var key :| key in m && EqualsIgnoreCase(key, token);
      Some(key)
    else None
  }

  /** A key equal to the token ignoring case is the one a lookup finds. */
  lemma MatchingKeyIs(m: map<string, Command>, token: string, key: string)
    requires KeysDistinctIgnoringCase(m) && key in m && EqualsIgnoreCase(key, token)
    ensures MatchingKey(m, token) == Some(key)
  {
    var found := MatchingKey(m, token);
    assert EqualsIgnoreCase(found.value, key);
  }

  /** Only a key equal to "execute_script" ignoring case holds the ExecuteScript command. */
  lemma ScriptKeyIsExecuteScript(m: map<string, Command>, key: string)
    requires StandardKeys(m) && key in m
    ensures m[key].kind == ExecuteScript ==> EqualsIgnoreCase(key, "execute_script")
  {
  }

  /**
   * The scan of `keySet()` for the key equal to the token ignoring case (the set is
   * visited in no particular order, as a HashMap's is).
   */
  method FindKey(m: map<string, Command>, token: string) returns (found: Option<string>)
    requires KeysDistinctIgnoringCase(m)
    ensures found == MatchingKey(m, token)
  {
    var unvisited := m.Keys;
    while unvisited != {}
      invariant unvisited <= m.Keys
      invariant forall key :: key in m.Keys - unvisited ==> !EqualsIgnoreCase(key, token)
      decreases |unvisited|
    {
      var key :| key in unvisited;
      if EqualsIgnoreCase(key, token) {
        return Some(key);
      }
      unvisited := unvisited - {key};
    }
    return None;
  }

  class CommandControl {
    /** commandMapping: one map object, shared with CollectionControl. */
    const commandMapping: CommandMap

    constructor(addElement: Command, addElementIfMin: Command, clear: Command,
                executeScript: Command, exit: Command, filterGreaterStatus: Command,
                groupByStatus: Command, help: Command, info: Command, printFieldOfPerson: Command,
                removeElementByID: Command, removeGreater: Command,
                saveCollection: Command, show: Command, sort: Command, updateByID: Command,
                collectionControl: CollectionControl)
      modifies collectionControl`bufferOfCommandMap
      ensures fresh(commandMapping)
      ensures commandMapping.entries == Registered(PutOrder(addElement, addElementIfMin, clear,
        executeScript, exit, filterGreaterStatus, groupByStatus, help, info, printFieldOfPerson,
        removeElementByID, removeGreater, saveCollection, show, sort, updateByID))
      ensures collectionControl.bufferOfCommandMap == commandMapping
    {
      var m := new CommandMap();
      ghost var order := PutOrder(addElement, addElementIfMin, clear, executeScript, exit, filterGreaterStatus,
        groupByStatus, help, info, printFieldOfPerson, removeElementByID, removeGreater, saveCollection,
        show, sort, updateByID);
      m.Put(addElement.name, addElement);
      RegisteredPrefix(order, 0);
      m.Put(addElementIfMin.name, addElementIfMin);
      RegisteredPrefix(order, 1);
      m.Put(clear.name, clear);
      RegisteredPrefix(order, 2);
      m.Put(executeScript.name, executeScript);
      RegisteredPrefix(order, 3);
      m.Put(exit.name, exit);
      RegisteredPrefix(order, 4);
      m.Put(filterGreaterStatus.name, filterGreaterStatus);
      RegisteredPrefix(order, 5);
      m.Put(groupByStatus.name, groupByStatus);
      RegisteredPrefix(order, 6);
      m.Put(help.name, help);
      RegisteredPrefix(order, 7);
      m.Put(info.name, info);
      RegisteredPrefix(order, 8);
      m.Put(printFieldOfPerson.name, printFieldOfPerson);
      RegisteredPrefix(order, 9);
      m.Put(removeElementByID.name, removeElementByID);
      RegisteredPrefix(order, 10);
      m.Put(removeGreater.name, removeGreater);
      RegisteredPrefix(order, 11);
      m.Put(show.name, show);
      RegisteredPrefix(order, 12);
      m.Put(sort.name, sort);
      RegisteredPrefix(order, 13);
      m.Put(updateByID.name, updateByID);
      RegisteredPrefix(order, 14);
      m.Put(saveCollection.name, saveCollection);
      RegisteredPrefix(order, 15);
      assert order[..16] == order;
      commandMapping := m;
      new;
      collectionControl.GetMappingOfCommands(commandMapping);
    }

    method GetMapping() returns (m: CommandMap)
      ensures m == commandMapping
    {
      m := commandMapping;
    }
  }
}

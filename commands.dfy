/**
 * AbstractCommand (a name and a description) and the sixteen concrete commands
 * the program registers, plus the HashMap that maps names to commands.
 * getName() and getDescription() are the fields `name` and `description`.
 */
module Commands {
  import opened JavaLang

  /** Which concrete command class an instance belongs to. */
  datatype Kind =
    | AddElement | AddIfMin | Clear | ExecuteScript | Exit | FilterGreaterStatus
    | GroupByStatus | Help | Info | PrintFieldOfPerson | RemoveElementById
    | RemoveGreater | SaveCollection | Show | Sort | UpdateById

  datatype Command = Command(kind: Kind, name: string, description: string)
  {
    /** AbstractCommand.equals: any AbstractCommand with the same name and description. */
    predicate Equals(obj: Obj<Command>)
    {
      match obj
      case Itself => true
      case Foreign => false
      case Instance(other) => name == other.name && description == other.description
    }
  }

  /** equals ignores the concrete class and is an equivalence on instances. */
  lemma CommandEqualsIff(c: Command, d: Command)
    ensures c.Equals(Instance(d)) <==> c.(kind := d.kind) == d
    ensures c.Equals(Instance(c)) && c.Equals(Itself) && !c.Equals(Foreign)
    ensures c.Equals(Instance(d)) ==> d.Equals(Instance(c))
  {
  }

  /** The name each command class passes to its super constructor. */
  function StandardName(kind: Kind): string
  {
    match kind
    case AddElement => "addElement"
    case AddIfMin => "add_if_min"
    case Clear => "clear"
    case ExecuteScript => "execute_script"
    case Exit => "exit"
    case FilterGreaterStatus => "filter_greater_than_status"
    case GroupByStatus => "group_counting_by_status"
    case Help => "help"
    case Info => "info"
    case PrintFieldOfPerson => "print_field_ascending_person"
    case RemoveElementById => "remove_element_by_id"
    case RemoveGreater => "remove_greater"
    case SaveCollection => "save"
    case Show => "show"
    case Sort => "sort"
    case UpdateById => "update_by_id"
  }

  /** The description each command class passes to its super constructor. */
  function StandardDescription(kind: Kind): string
  {
    match kind
    case AddElement => "Добавить элемент в коллекцию"
    case AddIfMin => "Добавить новым элемент в коллекцю, если меньше" + "минимального в коллекции"
    case Clear => "очистить коллекцию"
    case ExecuteScript => "выполняет скрипт"
    case Exit => "прекращает работу программы"
    case FilterGreaterStatus => "вывести элементы, значение поля status которых больше заданного"
    case GroupByStatus => "сгруппировать элементы коллекции по назначению поля status, вывести кол-во элементов в каждой группе"
    case Help => "вывести справку по доступным командам"
    case Info => "выводит информацию о коллекции (тип, дата инициализации, кол-во элементов и т.д.)"
    case PrintFieldOfPerson => "выводит данные о человеке в порядке возрастания"
    case RemoveElementById => "Remove an element from the collection by its ID"
    case RemoveGreater => "Remove all elements from the collection that are greater than the specified element"
    case SaveCollection => "сохранить коллекцию в файл"
    case Show => "вывести в стандартный поток вывода все элементы коллекции в строковом представлению"
    case Sort => "Отсортировать коллекцию в естественном порядке"
    case UpdateById => "Обновить значение элемента коллекции, id  которого равен заданному"
  }

  function Standard(kind: Kind): Command
  {
    Command(kind, StandardName(kind), StandardDescription(kind))
  }

  /**
   * Every standard name has at least four chars; its length and its upper-cased
   * chars at positions 0, 1 and 3 already tell the sixteen names apart.
   */
  function Signature(k: Kind): (int, char, char, char)
  {
    var n := StandardName(k);
    assert |n| >= 4;
    (|n|, ToUpperChar(n[0]), ToUpperChar(n[1]), ToUpperChar(n[3]))
  }

  lemma SignatureInjective(k: Kind, l: Kind)
    requires Signature(k) == Signature(l)
    ensures k == l
  {
  }

  /** No two standard commands have names that are equal ignoring case. */
  lemma StandardNamesDistinct(k: Kind, l: Kind)
    requires EqualsIgnoreCase(StandardName(k), StandardName(l))
    ensures k == l
  {
    var a, b := StandardName(k), StandardName(l);
    StandardNameLength(k);
    EqualIgnoringCaseAt(a, b, 0);
    EqualIgnoringCaseAt(a, b, 1);
    EqualIgnoringCaseAt(a, b, 3);
    SignatureInjective(k, l);
  }

  lemma StandardNameLength(k: Kind)
    ensures |StandardName(k)| >= 4
  {
  }

  /** The mutable name-to-command HashMap; it is shared, so it is an object. */
  class CommandMap {
    var entries: map<string, Command>

    constructor()
      ensures entries == map[]
    {
      entries := map[];
    }

    /** HashMap.put: a later put under the same key replaces the earlier value. */
    method Put(key: string, command: Command)
      modifies this
      ensures entries == old(entries)[key := command]
    {
      entries := entries[key := command];
    }
  }
}

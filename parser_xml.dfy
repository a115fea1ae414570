/**
 * ParserXml: the workers of an XML file, one per `worker` element in document order,
 * or nothing at all when any of them fails.
 *
 * The DOM is not modelled. A worker element is given by the texts getTagValue finds in
 * it: for each tag, the text of the first descendant element with that tag, or None when
 * getTagValue throws (no such element, or an element without a child node). An element
 * that getElementsByTagName(...).item(0) does not find is None as a whole.
 */
module XmlParser {
  import opened JavaLang
  import opened Data
  import opened Input
  import opened Store

  datatype CoordinatesElement = CoordinatesElement(x: Option<string>, y: Option<string>)

  datatype LocationElement = LocationElement(name: Option<string>, x: Option<string>, y: Option<string>, z: Option<string>)

  datatype PersonElement = PersonElement(birthday: Option<string>, height: Option<string>,
                                         passportID: Option<string>, location: Option<LocationElement>)

  datatype WorkerElement = WorkerElement(name: Option<string>, coordinates: Option<CoordinatesElement>,
                                         salary: Option<string>, position: Option<string>, status: Option<string>,
                                         person: Option<PersonElement>)

  /** `parse(getTagValue(tag, element))`: None when the tag has no text or the text does not parse. */
  function Parsed<T>(text: Option<string>, parse: string -> Option<T>): (r: Option<T>)
    ensures r.Some? ==> text.Some? && parse(text.value) == r
  {
    if text.None? then None else parse(text.value)
  }

  /** `Enum.valueOf(text.toUpperCase())`, for either enum. */
  function UpperPosition(text: string): Option<Position>
  {
    PositionValueOf(ToUpperCase(text))
  }

  function UpperStatus(text: string): Option<Status>
  {
    StatusValueOf(ToUpperCase(text))
  }

  /**
   * getLocalDateTime: the text as yyyy-MM-dd (not trimmed) at the start of that day, or
   * null (None) when it does not parse or lies after today; it never fails.
   */
  function GetLocalDateTime(text: string, today: Date): (r: Option<Date>)
  {
    match ParseLocalDate(text)
    case None => None
    case Some(bd) => if bd.IsAfter(today) then None else Some(bd)
  }

  /** getCoordinates: x is refused above 468 and y at or below -922. */
  function GetCoordinates(e: Option<CoordinatesElement>): (r: Option<Coordinates>)
  {
    if e.None? then None
    else
      var x := Parsed(e.value.x, ParseInt);
      if x.None? || x.value > 468 then None
      else
        var y := Parsed(e.value.y, ParseInt);
        if y.None? || y.value <= -922 then None
        else Some(Coordinates(Some(x.value), y.value))
  }

  /** getLocation: the name as it stands, Float.parseFloat, Long.parseLong and Integer.parseInt; no range checks. */
  function GetLocation(e: Option<LocationElement>): (r: Option<Location>)
  {
    if e.None? || e.value.name.None? then None
    else
      var x := Parsed(e.value.x, ParseDecimal);
      var y := Parsed(e.value.y, ParseLong);
      var z := Parsed(e.value.z, ParseInt);
      if x.None? || y.None? || z.None? then None
      else Some(Location(x.value, y.value, z.value, e.value.name.value))
  }

  /** getPerson: the height is refused above 350 and the passportID unless it has six chars. */
  function GetPerson(e: Option<PersonElement>, today: Date): (r: Option<Person>)
  {
    if e.None? || e.value.birthday.None? then None
    else
      var birthday := GetLocalDateTime(e.value.birthday.value, today);
      var height := Parsed(e.value.height, ParseLong);
      if height.None? || height.value > 350 then None
      else if e.value.passportID.None? || |e.value.passportID.value| != 6 then None
      else
        var location := GetLocation(e.value.location);
        if location.None? then None
        else Some(Person(birthday, height.value, e.value.passportID.value, location.value))
  }

  /**
   * getWorker: the arguments of `new Worker(...)` for one element; the name must be
   * letters only and the salary positive; position and status ignore case.
   */
  function GetWorker(e: WorkerElement, today: Date): (r: Option<Draft>)
  {
    if e.name.None? || !ContainsOnlyDigitsOrLetters(e.name.value, false) then None
    else
      var coordinates := GetCoordinates(e.coordinates);
      var salary := Parsed(e.salary, ParseDecimal);
      if coordinates.None? || salary.None? || salary.value <= 0.0 then None
      else
        var position := Parsed(e.position, UpperPosition);
        var status := Parsed(e.status, UpperStatus);
        var person := GetPerson(e.person, today);
        if position.None? || status.None? || person.None? then None
        else Some(Draft(e.name.value, coordinates.value, salary.value, position.value, status.value, person.value))
  }

  // ---------------------------------------------------------------- the validation rules

  /** The values getWorker lets through, as the checks in getWorker, getCoordinates and getPerson state them. */
  predicate Admissible(d: Draft)
  {
    ContainsOnlyDigitsOrLetters(d.name, false) && d.salary > 0.0
    && d.coordinates.x.Some? && d.coordinates.x.value <= 468 && d.coordinates.y > -922
    && d.person.height <= 350 && |d.person.passportID| == 6
  }

  /** Every accepted worker passes the checks, and its fields are the texts it was read from. */
  lemma AcceptedIsAdmissible(e: WorkerElement, today: Date)
    requires GetWorker(e, today).Some?
    ensures Admissible(GetWorker(e, today).value)
    ensures e.name == Some(GetWorker(e, today).value.name)
    ensures Parsed(e.salary, ParseDecimal) == Some(GetWorker(e, today).value.salary)
    ensures GetCoordinates(e.coordinates) == Some(GetWorker(e, today).value.coordinates)
    ensures GetPerson(e.person, today) == Some(GetWorker(e, today).value.person)
  {
  }

  /** Coordinates are accepted exactly when both texts are ints with x <= 468 and y > -922. */
  lemma CoordinatesRule(e: CoordinatesElement)
    ensures GetCoordinates(Some(e)).Some? <==>
      Parsed(e.x, ParseInt).Some? && Parsed(e.y, ParseInt).Some?
      && Parsed(e.x, ParseInt).value <= 468 && Parsed(e.y, ParseInt).value > -922
    ensures GetCoordinates(Some(e)).Some? ==>
      GetCoordinates(Some(e)).value == Coordinates(Parsed(e.x, ParseInt), Parsed(e.y, ParseInt).value)
  {
  }

  /** A location is accepted whenever its four texts parse, whatever their values. */
  lemma LocationUnchecked(e: LocationElement)
    ensures GetLocation(Some(e)).Some? <==>
      e.name.Some? && Parsed(e.x, ParseDecimal).Some? && Parsed(e.y, ParseLong).Some? && Parsed(e.z, ParseInt).Some?
  {
  }

  /**
   * A person is refused for a height above 350 or a passportID whose length is not 6,
   * and for nothing else about those two: any length-6 text and any height up to 350,
   * negative ones included, is taken.
   */
  lemma PersonRule(e: PersonElement, today: Date)
    requires e.birthday.Some? && GetLocation(e.location).Some?
    ensures GetPerson(Some(e), today).Some? <==>
      Parsed(e.height, ParseLong).Some? && Parsed(e.height, ParseLong).value <= 350
      && e.passportID.Some? && |e.passportID.value| == 6
  {
  }

  /** For instance a height of -5 and the passportID "ab-!cd" pass. */
  lemma NoDigitCheckNoLowerBound(location: LocationElement, today: Date)
    requires GetLocation(Some(location)).Some?
    ensures GetPerson(Some(PersonElement(Some(""), Some("-5"), Some("ab-!cd"), Some(location))), today).Some?
  {
    MinusFive();
    assert ParseLocalDate("") == None;
  }

  lemma MinusFive()
    ensures ParseLong("-5") == Some(-5)
  {
    assert "-5"[1..] == "5";
    assert DigitsValue("5") == 5 by { assert "5"[..0] == ""; }
  }

  /**
   * The birthday text never makes a person fail: one that does not parse, or lies after
   * today, becomes null and the person is taken all the same.
   */
  lemma BirthdayNeverRefuses(e: PersonElement, text: string, today: Date)
    requires e.birthday.Some?
    ensures GetPerson(Some(e.(birthday := Some(text))), today).Some? == GetPerson(Some(e), today).Some?
    ensures ParseLocalDate(text).None? ==> GetLocalDateTime(text, today).None?
    ensures ParseLocalDate(text).Some? && ParseLocalDate(text).value.IsAfter(today) ==> GetLocalDateTime(text, today).None?
    ensures GetPerson(Some(e.(birthday := Some(text))), today).Some? ==>
      GetPerson(Some(e.(birthday := Some(text))), today).value.birthday == GetLocalDateTime(text, today)
  {
  }

  /** Position and status texts that differ only in case give the same constant. */
  lemma EnumsIgnoreCase(e: WorkerElement, position: string, status: string, today: Date)
    requires e.position.Some? && e.status.Some?
    requires EqualsIgnoreCase(position, e.position.value) && EqualsIgnoreCase(status, e.status.value)
    ensures GetWorker(e.(position := Some(position), status := Some(status)), today) == GetWorker(e, today)
  {
    UpperCaseEqual(position, e.position.value);
    UpperCaseEqual(status, e.status.value);
  }

  lemma UpperCaseEqual(a: string, b: string)
    requires EqualsIgnoreCase(a, b)
    ensures ToUpperCase(a) == ToUpperCase(b)
  {
    forall k | 0 <= k < |a| ensures ToUpperCase(a)[k] == ToUpperCase(b)[k] {
      EqualIgnoringCaseAt(a, b, k);
    }
  }

  // ---------------------------------------------------------------- the whole document

  /** Worker.idCounter after `n` auto-id constructions. */
  function Advanced(counter: Int32, n: nat): (r: Int32)
  {
    if n == 0 then counter else Increment(Advanced(counter, n - 1))
  }

  /** getWorker on each element, with the clock at `today`. */
  function WorkerParse(today: Date): WorkerElement -> Option<Draft>
  {
    e => GetWorker(e, today)
  }

  /**
   * parseWorkersFromXML over the worker elements, each read by `parse`: the workers in
   * document order, or None as soon as one element fails; and Worker.idCounter
   * afterwards, which the workers built before a failure have advanced all the same.
   */
  function ParsedWorkers(parse: WorkerElement -> Option<Draft>, elements: seq<WorkerElement>, counter: Int32)
    : (r: (Option<seq<Worker>>, Int32))
    decreases |elements|
  {
    if elements == [] then (Some([]), counter)
    else match parse(elements[0])
      case None => (None, counter)
      case Some(d) =>
        var id := Increment(counter);
        var rest := ParsedWorkers(parse, elements[1..], id);
        (if rest.0.None? then None else Some([WorkerWithId(id, d)] + rest.0.value), rest.1)
  }

  /** The index of the first element that fails, or the number of elements when none does. */
  function FirstFailure(parse: WorkerElement -> Option<Draft>, elements: seq<WorkerElement>): (k: nat)
    ensures k <= |elements|
    ensures forall i :: 0 <= i < k ==> parse(elements[i]).Some?
    ensures k < |elements| ==> parse(elements[k]).None?
    decreases |elements|
  {
    if elements == [] || parse(elements[0]).None? then 0
    else 1 + FirstFailure(parse, elements[1..])
  }

  /**
   * All or nothing: the result is a list exactly when every element is a valid worker;
   * it then has one worker per element, in order, the i-th with the (i+1)-th next id.
   * Either way the counter has advanced once per element before the first failure.
   */
  lemma {:induction false} ParsedAllOrNothing(parse: WorkerElement -> Option<Draft>, elements: seq<WorkerElement>, counter: Int32)
    ensures ParsedWorkers(parse, elements, counter).0.Some? <==> FirstFailure(parse, elements) == |elements|
    ensures ParsedWorkers(parse, elements, counter).1 == Advanced(counter, FirstFailure(parse, elements))
    ensures ParsedWorkers(parse, elements, counter).0.Some? ==>
      var ws := ParsedWorkers(parse, elements, counter).0.value;
      |ws| == |elements| &&
      forall i :: 0 <= i < |ws| ==> ws[i] == WorkerWithId(Advanced(counter, i + 1), parse(elements[i]).value)
    decreases |elements|
  {
    if elements != [] && parse(elements[0]).Some? {
      var d := parse(elements[0]).value;
      var id := Increment(counter);
      var tail := elements[1..];
      ParsedAllOrNothing(parse, tail, id);
      AdvancedAfterOne(counter, FirstFailure(parse, tail));
      var rest := ParsedWorkers(parse, tail, id);
      if rest.0.Some? {
        var ws := [WorkerWithId(id, d)] + rest.0.value;
        forall i | 0 <= i < |ws|
          ensures ws[i] == WorkerWithId(Advanced(counter, i + 1), parse(elements[i]).value)
        {
          if i > 0 {
            AdvancedAfterOne(counter, i);
            assert elements[i] == tail[i - 1];
          }
        }
      }
    }
  }

  /** Advancing once and then n times is advancing n + 1 times. */
  lemma {:induction false} AdvancedAfterOne(counter: Int32, n: nat)
    ensures Advanced(Increment(counter), n) == Advanced(counter, n + 1)
  {
    if n > 0 {
      AdvancedAfterOne(counter, n - 1);
    }
  }

  /** The workers before an element, put in front of what parsing the rest gives. */
  function Prepended(done: seq<Worker>, rest: (Option<seq<Worker>>, Int32)): (Option<seq<Worker>>, Int32)
  {
    (if rest.0.None? then None else Some(done + rest.0.value), rest.1)
  }

  /** `parse` reads each element as getWorker does. */
  ghost predicate ParsesAs(parse: WorkerElement -> Option<Draft>, today: Date)
  {
    forall e {:trigger GetWorker(e, today)} :: parse(e) == GetWorker(e, today)
  }

  lemma WorkerParseParsesAs(today: Date)
    ensures ParsesAs(WorkerParse(today), today)
  {
  }

  /** Parsing from an element that succeeds: its worker, then the rest. */
  lemma ParsedFrom(parse: WorkerElement -> Option<Draft>, elements: seq<WorkerElement>, i: nat, counter: Int32)
    requires i < |elements| && parse(elements[i]).Some?
    ensures ParsedWorkers(parse, elements[i..], counter) ==
      Prepended([WorkerWithId(Increment(counter), parse(elements[i]).value)],
        ParsedWorkers(parse, elements[i + 1..], Increment(counter)))
  {
    assert elements[i..][1..] == elements[i + 1..];
  }

  lemma PrependedNothing(rest: (Option<seq<Worker>>, Int32))
    ensures Prepended([], rest) == rest
  {
    if rest.0.Some? {
      assert [] + rest.0.value == rest.0.value;
    }
  }

  lemma PrependedNothingMore(done: seq<Worker>, counter: Int32)
    ensures Prepended(done, (Some([]), counter)) == (Some(done), counter)
  {
    assert done + [] == done;
  }

  /** Two prefixes put in front one after the other. */
  lemma PrependedTwice(done: seq<Worker>, w: Worker, rest: (Option<seq<Worker>>, Int32))
    ensures Prepended(done, Prepended([w], rest)) == Prepended(done + [w], rest)
  {
    if rest.0.Some? {
      AppendAssociative(done, [w], rest.0.value);
    }
  }

  class ParserXml {
    const file: string

    constructor(file: string)
      ensures this.file == file
    {
      this.file := file;
    }

    /**
     * parseWorkersFromXML, given the worker elements of the file, or None when the
     * file cannot be read or parsed as XML. Worker.idCounter is the store's idCounter.
     */
    method ParseWorkersFromXml(document: Option<seq<WorkerElement>>, today: Date, store: CollectionControl)
      returns (workers: Option<seq<Worker>>)
      modifies store`idCounter
      ensures document.None? ==> workers.None? && store.idCounter == old(store.idCounter)
      ensures document.Some? ==> (workers, store.idCounter) == ParsedWorkers(WorkerParse(today), document.value, old(store.idCounter))
    {
      if document.None? {
        return None;
      }
      WorkerParseParsesAs(today);
      workers := ParseElements(document.value, today, store, WorkerParse(today));
    }

    /** The loop of parseWorkersFromXML: one getWorker and one `workerList.add` per element. */
    method ParseElements(elements: seq<WorkerElement>, today: Date, store: CollectionControl,
                         ghost parse: WorkerElement -> Option<Draft>)
      returns (workers: Option<seq<Worker>>)
      requires ParsesAs(parse, today)
      modifies store`idCounter
      ensures (workers, store.idCounter) == ParsedWorkers(parse, elements, old(store.idCounter))
    {
      var list: seq<Worker> := [];
      var i := 0;
      assert elements[i..] == elements;
      PrependedNothing(ParsedWorkers(parse, elements, store.idCounter));
      while i < |elements|
        invariant 0 <= i <= |elements|
        invariant Prepended(list, ParsedWorkers(parse, elements[i..], store.idCounter)) ==
          ParsedWorkers(parse, elements, old(store.idCounter))
      {
        var draft := GetWorker(elements[i], today);
        if draft.None? {
          // the InputException or parse exception is caught, and null is returned
          assert ParsedWorkers(parse, elements[i..], store.idCounter).0 == None;
          return None;
        }
        ghost var rest := ParsedWorkers(parse, elements[i + 1..], Increment(store.idCounter));
        ParsedFrom(parse, elements, i, store.idCounter);
        var worker := store.NewWorker(draft.value);
        PrependedTwice(list, worker, rest);
        list := list + [worker];
        i := i + 1;
      }
      assert elements[i..] == [];
      PrependedNothingMore(list, store.idCounter);
      workers := Some(list);
    }
  }
}

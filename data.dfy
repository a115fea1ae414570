/**
 * The entities of the worker collection: Status and Position enums, Coordinates,
 * Location, Person and Worker, with their equals / compareTo rules.
 *
 * creationDate is not represented; birthdays are dates at the start of the day,
 * `Double` salaries and `float` location x are reals.
 */
module Data {
  import opened JavaLang

  // ---------------------------------------------------------------- enums

  datatype Status = Hired | RecommendedForPromotion | Regular | Probation
  {
    /** Enum.name(). */
    function Name(): string
    {
      match this
      case Hired => "HIRED"
      case RecommendedForPromotion => "RECOMMENDED_FOR_PROMOTION"
      case Regular => "REGULAR"
      case Probation => "PROBATION"
    }

    /** Enum.ordinal(): the declaration position. */
    function Ordinal(): (k: nat)
      ensures k < |StatusValues| && StatusValues[k] == this
    {
      match this
      case Hired => 0
      case RecommendedForPromotion => 1
      case Regular => 2
      case Probation => 3
    }
  }

  /** Status.values(), in declaration order. */
  const StatusValues: seq<Status> := [Hired, RecommendedForPromotion, Regular, Probation]

  /** Status.valueOf: the constant with exactly this name, or IllegalArgumentException (None). */
  function StatusValueOf(name: string): (r: Option<Status>)
    ensures r.Some? ==> r.value.Name() == name
    ensures r.None? ==> forall s: Status :: s.Name() != name
  {
    if name == "HIRED" then Some(Hired)
    else if name == "RECOMMENDED_FOR_PROMOTION" then Some(RecommendedForPromotion)
    else if name == "REGULAR" then Some(Regular)
    else if name == "PROBATION" then Some(Probation)
    else None
  }

  /** The ordinal order has HIRED as its least and PROBATION as its greatest element. */
  lemma StatusOrdinalBounds(s: Status)
    ensures Hired.Ordinal() <= s.Ordinal() <= Probation.Ordinal()
    ensures s.Ordinal() == 0 <==> s == Hired
    ensures s.Ordinal() == 3 <==> s == Probation
  {
  }

  /** Distinct constants have distinct ordinals and distinct names. */
  lemma StatusInjective(s: Status, t: Status)
    requires s != t
    ensures s.Ordinal() != t.Ordinal() && s.Name() != t.Name()
  {
  }

  /** valueOf inverts name(). */
  lemma StatusValueOfName(s: Status)
    ensures StatusValueOf(s.Name()) == Some(s)
  {
  }

  datatype Position = Director | HeadOfDivision | HeadOfDepartment | ManagerOfCleaning
  {
    function Name(): string
    {
      match this
      case Director => "DIRECTOR"
      case HeadOfDivision => "HEAD_OF_DIVISION"
      case HeadOfDepartment => "HEAD_OF_DEPARTMENT"
      case ManagerOfCleaning => "MANAGER_OF_CLEANING"
    }
  }

  const PositionValues: seq<Position> := [Director, HeadOfDivision, HeadOfDepartment, ManagerOfCleaning]

  /** Position.valueOf. */
  function PositionValueOf(name: string): (r: Option<Position>)
    ensures r.Some? ==> r.value.Name() == name
    ensures r.None? ==> forall p: Position :: p.Name() != name
  {
    if name == "DIRECTOR" then Some(Director)
    else if name == "HEAD_OF_DIVISION" then Some(HeadOfDivision)
    else if name == "HEAD_OF_DEPARTMENT" then Some(HeadOfDepartment)
    else if name == "MANAGER_OF_CLEANING" then Some(ManagerOfCleaning)
    else None
  }

  lemma PositionValueOfName(p: Position)
    ensures PositionValueOf(p.Name()) == Some(p)
  {
  }

  /** Every constant occurs exactly once in values(). */
  lemma ValuesAreComplete(s: Status, p: Position)
    ensures multiset(StatusValues)[s] == 1 && multiset(PositionValues)[p] == 1
  {
  }

  // ---------------------------------------------------------------- nameList

  /** The StringBuilder of nameList after its loop: every name followed by ", ". */
  function AppendNames(names: seq<string>): (acc: string)
    ensures names != [] ==> |acc| >= 2 && acc[|acc| - 2..] == ", "
  {
    if names == [] then "" else AppendNames(names[..|names| - 1]) + names[|names| - 1] + ", "
  }

  /** nameList: the accumulated text without its last two chars. */
  function NameList(names: seq<string>): string
    requires names != []
  {
    var acc := AppendNames(names);
    acc[..|acc| - 2]
  }

  function StatusNameList(): string
  {
    NameList(seq(|StatusValues|, k requires 0 <= k < |StatusValues| => StatusValues[k].Name()))
  }

  function PositionNameList(): string
  {
    NameList(seq(|PositionValues|, k requires 0 <= k < |PositionValues| => PositionValues[k].Name()))
  }

  lemma {:induction false} JoinSnoc(init: seq<string>, last: string, sep: string)
    requires init != []
    ensures Join(init + [last], sep) == Join(init, sep) + sep + last
  {
    if |init| == 1 {
      assert init + [last] == [init[0], last];
      assert [init[0], last][1..] == [last];
    } else {
      assert (init + [last])[1..] == init[1..] + [last];
      JoinSnoc(init[1..], last, sep);
    }
  }

  /** Appending "name, " per element and dropping the last separator joins the names by ", ". */
  lemma {:induction false} AppendNamesJoin(names: seq<string>)
    requires names != []
    ensures AppendNames(names) == Join(names, ", ") + ", "
  {
    var k := |names|;
    if k == 1 {
      assert AppendNames(names[..0]) == "";
    } else {
      var init := names[..k - 1];
      AppendNamesJoin(init);
      JoinSnoc(init, names[k - 1], ", ");
      assert init + [names[k - 1]] == names;
    }
  }

  lemma NameListJoin(names: seq<string>)
    requires names != []
    ensures NameList(names) == Join(names, ", ")
  {
    AppendNamesJoin(names);
    var j := Join(names, ", ");
    assert AppendNames(names) == j + ", ";
    assert (j + ", ")[..|j|] == j;
  }

  lemma JoinFour(a: string, b: string, c: string, d: string)
    ensures Join([a, b, c, d], ", ") == a + ", " + b + ", " + c + ", " + d
  {
    assert [a, b, c, d][1..] == [b, c, d];
    assert [b, c, d][1..] == [c, d];
    assert [c, d][1..] == [d];
    assert Join([c, d], ", ") == c + ", " + d;
    assert Join([b, c, d], ", ") == b + ", " + (c + ", " + d);
    assert Join([a, b, c, d], ", ") == a + ", " + (b + ", " + (c + ", " + d));
  }

  /** Status.nameList: the four names, in declaration order, separated by ", " and nothing after the last. */
  lemma StatusNameListValue()
    ensures StatusNameList() == "HIRED" + ", " + "RECOMMENDED_FOR_PROMOTION" + ", " + "REGULAR" + ", " + "PROBATION"
  {
    var names := seq(|StatusValues|, k requires 0 <= k < |StatusValues| => StatusValues[k].Name());
    assert names == ["HIRED", "RECOMMENDED_FOR_PROMOTION", "REGULAR", "PROBATION"];
    NameListJoin(names);
    JoinFour("HIRED", "RECOMMENDED_FOR_PROMOTION", "REGULAR", "PROBATION");
  }

  lemma PositionNameListValue()
    ensures PositionNameList() == "DIRECTOR" + ", " + "HEAD_OF_DIVISION" + ", " + "HEAD_OF_DEPARTMENT" + ", " + "MANAGER_OF_CLEANING"
  {
    var names := seq(|PositionValues|, k requires 0 <= k < |PositionValues| => PositionValues[k].Name());
    assert names == ["DIRECTOR", "HEAD_OF_DIVISION", "HEAD_OF_DEPARTMENT", "MANAGER_OF_CLEANING"];
    NameListJoin(names);
    JoinFour("DIRECTOR", "HEAD_OF_DIVISION", "HEAD_OF_DEPARTMENT", "MANAGER_OF_CLEANING");
  }

  // ---------------------------------------------------------------- dates

  /** A LocalDateTime at the start of a day. */
  datatype Date = Date(year: int, month: int, day: int)
  {
    /** LocalDate.compareTo: the year difference, else the month difference, else the day difference. */
    function CompareTo(other: Date): int
    {
      if year != other.year then year - other.year
      else if month != other.month then month - other.month
      else day - other.day
    }

    predicate IsAfter(other: Date) { CompareTo(other) > 0 }
  }

  predicate IsLeap(year: int)
  {
    year % 4 == 0 && (year % 100 != 0 || year % 400 == 0)
  }

  function MonthLength(year: int, month: int): int
  {
    if month == 2 then (if IsLeap(year) then 29 else 28)
    else if month == 4 || month == 6 || month == 9 || month == 11 then 30
    else 31
  }

  /** A date that exists in the proleptic Gregorian calendar, with a four-digit year. */
  predicate ValidDate(d: Date)
  {
    1 <= d.year <= 9999 && 1 <= d.month <= 12 && 1 <= d.day <= MonthLength(d.year, d.month)
  }

  /**
   * LocalDate.parse(s, ofPattern("yyyy-MM-dd")) on four-digit years: four year digits,
   * '-', two month digits, '-', two day digits and nothing more. Under the default SMART
   * resolver a day 29..31 beyond the month's length is moved back to the month's last
   * day. Longer, signed years are refused here; such dates lie in the future, which every
   * caller refuses or nulls just as it does a text that does not parse.
   */
  function ParseLocalDate(s: string): (r: Option<Date>)
    ensures r.Some? ==> ValidDate(r.value)
    ensures r.Some? ==> |s| == 10 && s[4] == '-' && s[7] == '-'
  {
    if |s| != 10 || s[4] != '-' || s[7] != '-' || !AllDigits(s[..4]) || !AllDigits(s[5..7]) || !AllDigits(s[8..])
    then None
    else
      var year, month, day := DigitsValue(s[..4]), DigitsValue(s[5..7]), DigitsValue(s[8..]);
      assert year < 10000 by { FourDigitsBound(s[..4]); }
      if year == 0 || month < 1 || month > 12 || day < 1 || day > 31 then None
      else Some(Date(year, month, if day > MonthLength(year, month) then MonthLength(year, month) else day))
  }

  lemma FourDigitsBound(s: string)
    requires |s| == 4 && AllDigits(s)
    ensures DigitsValue(s) < 10000
  {
    assert DigitsValue(s[..1]) < 10;
    assert s[..2][..1] == s[..1];
    assert DigitsValue(s[..2]) < 100;
    assert s[..3][..2] == s[..2];
    assert DigitsValue(s[..3]) < 1000;
    assert s[..3] == s[..|s| - 1];
  }

  /** Date.compareTo is zero exactly on equal dates and flips sign when the operands swap. */
  lemma DateCompareTo(a: Date, b: Date)
    ensures a.CompareTo(b) == 0 <==> a == b
    ensures b.CompareTo(a) == -a.CompareTo(b)
  {
  }

  // ---------------------------------------------------------------- value classes

  /** Coordinates(Integer x, int y): x is a boxed Integer and may be null (None). */
  datatype Coordinates = Coordinates(x: Option<int>, y: int)
  {
    /** Objects.equals on x (null-safe) and == on y. */
    predicate Equals(obj: Obj<Coordinates>)
    {
      match obj
      case Itself => true
      case Instance(other) => x == other.x && y == other.y
      case Foreign => false
    }
  }

  /** Coordinates.equals is plain field-wise equality, reflexive also on distinct instances. */
  lemma CoordinatesEqualsIff(c: Coordinates, d: Coordinates)
    ensures c.Equals(Instance(d)) <==> c == d
    ensures c.Equals(Itself) && !c.Equals(Foreign)
  {
  }

  datatype Location = Location(x: real, y: int, z: int, name: string)
  {
    /** Compares x, y and z; the name does not take part. */
    predicate Equals(obj: Obj<Location>)
    {
      match obj
      case Itself => true
      case Instance(other) => x == other.x && y == other.y && z == other.z
      case Foreign => false
    }
  }

  /** Two locations are equal iff they differ at most in their name. */
  lemma LocationEqualsIgnoresName(l: Location, m: Location)
    ensures l.Equals(Instance(m)) <==> l.(name := m.name) == m
    ensures l.Equals(Itself) && !l.Equals(Foreign)
  {
  }

  /** Location.equals is an equivalence on instances. */
  lemma LocationEqualsEquivalence(a: Location, b: Location, c: Location)
    ensures a.Equals(Instance(a))
    ensures a.Equals(Instance(b)) ==> b.Equals(Instance(a))
    ensures a.Equals(Instance(b)) && b.Equals(Instance(c)) ==> a.Equals(Instance(c))
  {
  }

  /** Person(birthday, height, passportID, location); a birthday that failed to parse is null (None). */
  datatype Person = Person(birthday: Option<Date>, height: int, passportID: string, location: Location)
  {
    /**
     * Compares height, location, passportID and then birthday, stopping at the first
     * mismatch; `birthday.equals` on a null birthday throws NullPointerException.
     */
    function Equals(obj: Obj<Person>): Eval<bool>
    {
      match obj
      case Itself => Value(true)
      case Foreign => Value(false)
      case Instance(other) =>
        if height != other.height || !location.Equals(Instance(other.location)) || passportID != other.passportID
        then Value(false)
        else if birthday.None? then NullPointer
        else Value(birthday == other.birthday)
    }

    /** Orders by birthday alone; a null birthday on either side throws. */
    function CompareTo(other: Person): (r: Eval<int>)
      ensures r.NullPointer? <==> birthday.None? || other.birthday.None?
    {
      if birthday.None? || other.birthday.None? then NullPointer
      else Value(birthday.value.CompareTo(other.birthday.value))
    }
  }

  /** With a birthday present, Person.equals holds iff the persons differ at most in the location name. */
  lemma PersonEqualsIff(p: Person, q: Person)
    requires p.birthday.Some?
    ensures p.Equals(Instance(q)) == Value(p.(location := p.location.(name := q.location.name)) == q)
  {
  }

  /** Person.equals throws exactly when every earlier field matches and the receiver has no birthday. */
  lemma PersonEqualsThrows(p: Person, q: Person)
    ensures p.Equals(Instance(q)).NullPointer? <==>
      p.birthday.None? && p.height == q.height && p.location.Equals(Instance(q.location)) && p.passportID == q.passportID
    ensures p.Equals(Itself) == Value(true) && p.Equals(Foreign) == Value(false)
  {
  }

  /** Person.compareTo looks at nothing but the birthdays. */
  lemma PersonCompareToBirthdayOnly(p: Person, q: Person)
    requires p.birthday.Some? && q.birthday.Some?
    ensures p.CompareTo(q).Value?
    ensures p.CompareTo(q).value == 0 <==> p.birthday == q.birthday
    ensures q.CompareTo(p).value == -p.CompareTo(q).value
  {
    DateCompareTo(p.birthday.value, q.birthday.value);
  }

  // ---------------------------------------------------------------- Worker

  /** The values read for a new worker, in the order the constructor takes them. */
  datatype Draft = Draft(name: string, coordinates: Coordinates, salary: real,
                         position: Position, status: Status, person: Person)

  datatype Worker = Worker(id: int, name: string, coordinates: Coordinates, salary: real,
                           position: Position, status: Status, person: Person)
  {
    /** setID: the same worker with another id. */
    function SetID(newId: int): (w: Worker)
      ensures w.id == newId
      ensures w.(id := id) == this
    {
      this.(id := newId)
    }

    /** compareTo: String.compareTo on the names alone. */
    function CompareTo(other: Worker): int
    {
      JavaLang.CompareTo(name, other.name)
    }

    /**
     * equals: name, coordinates, salary, status, position and then person, stopping at
     * the first mismatch; id and creationDate take no part.
     */
    function Equals(obj: Obj<Worker>): Eval<bool>
    {
      match obj
      case Itself => Value(true)
      case Foreign => Value(false)
      case Instance(other) =>
        if name != other.name || !coordinates.Equals(Instance(other.coordinates)) || salary != other.salary
           || status != other.status || position != other.position
        then Value(false)
        else person.Equals(Instance(other.person))
    }
  }

  /** The explicit-id constructor: the given id, the drafted fields, and no change to idCounter. */
  function WorkerWithId(id: int, d: Draft): (w: Worker)
    ensures w.id == id && w.name == d.name && w.salary == d.salary && w.person == d.person
    ensures w.coordinates == d.coordinates && w.position == d.position && w.status == d.status
  {
    Worker(id, d.name, d.coordinates, d.salary, d.position, d.status, d.person)
  }

  /** Worker.compareTo is zero exactly for equal names and is antisymmetric. */
  lemma WorkerCompareToNames(w: Worker, v: Worker)
    ensures w.CompareTo(v) == 0 <==> w.name == v.name
    ensures v.CompareTo(w) == -w.CompareTo(v)
  {
    CompareToZeroIff(w.name, v.name);
    CompareToAntisymmetric(w.name, v.name);
  }

  /** The ordering ignores every field except the name. */
  lemma WorkerCompareToIgnoresOtherFields(w: Worker, v: Worker, w': Worker)
    requires w'.name == w.name
    ensures w'.CompareTo(v) == w.CompareTo(v)
  {
  }

  /**
   * With a birthday present, Worker.equals holds iff the workers differ at most in the id
   * and in the name of the person's location.
   */
  lemma WorkerEqualsIff(w: Worker, v: Worker)
    requires w.person.birthday.Some?
    ensures w.Equals(Instance(v)) ==
      Value(w.(id := v.id, person := w.person.(location := w.person.location.(name := v.person.location.name))) == v)
  {
    PersonEqualsIff(w.person, v.person);
  }

  /** Worker.equals is true on the same object and false on anything that is not a Worker. */
  lemma WorkerEqualsReflexive(w: Worker)
    ensures w.Equals(Itself) == Value(true) && w.Equals(Foreign) == Value(false)
    ensures w.person.birthday.Some? ==> w.Equals(Instance(w.SetID(w.id + 1))) == Value(true)
  {
  }
}

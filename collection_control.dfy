/**
 * CollectionControl: the ArrayList of workers the commands change in place, together
 * with Worker's static id counter, and the functions that specify each change.
 */
module Store {
  import opened JavaLang
  import opened Data
  import opened Commands
  import opened Input

  // ---------------------------------------------------------------- ordering by name

  /** Non-decreasing under Worker.compareTo, i.e. by name. */
  predicate SortedByName(ws: seq<Worker>)
  {
    forall i, j :: 0 <= i < j < |ws| ==> ws[i].CompareTo(ws[j]) <= 0
  }

  /** Places `w` in front of the first worker whose name is not smaller than its own. */
  function InsertByName(w: Worker, ws: seq<Worker>): (r: seq<Worker>)
    ensures multiset(r) == multiset(ws) + multiset{w}
    ensures |r| == |ws| + 1
  {
    if ws == [] || w.CompareTo(ws[0]) <= 0 then [w] + ws
    else
      assert ws == [ws[0]] + ws[1..];
      [ws[0]] + InsertByName(w, ws[1..])
  }

  /**
   * Collections.sort on the list: a stable sort by Worker.compareTo. Written as an
   * insertion sort, which is stable because an element is inserted in front of the
   * equal names that follow it.
   */
  function StableSortByName(ws: seq<Worker>): (r: seq<Worker>)
    ensures multiset(r) == multiset(ws)
    ensures |r| == |ws|
  {
    if ws == [] then []
    else
      assert ws == [ws[0]] + ws[1..];
      InsertByName(ws[0], StableSortByName(ws[1..]))
  }

  lemma {:induction false} InsertKeepsSorted(w: Worker, ws: seq<Worker>)
    requires SortedByName(ws)
    ensures SortedByName(InsertByName(w, ws))
  {
    if ws != [] && w.CompareTo(ws[0]) > 0 {
      SortedTail(ws);
      InsertKeepsSorted(w, ws[1..]);
      HeadStaysFirst(w, ws);
    } else {
      PrependKeepsSorted(w, ws);
    }
  }

  /** Dropping the first worker of a sorted list leaves it sorted. */
  lemma SortedTail(ws: seq<Worker>)
    requires SortedByName(ws) && ws != []
    ensures SortedByName(ws[1..])
  {
    var rest := ws[1..];
    forall i, j | 0 <= i < j < |rest| ensures rest[i].CompareTo(rest[j]) <= 0 {
      assert rest[i] == ws[i + 1] && rest[j] == ws[j + 1];
    }
  }

  /** A worker whose name is not above the first one's can go in front of a sorted list. */
  lemma PrependKeepsSorted(w: Worker, ws: seq<Worker>)
    requires SortedByName(ws) && (ws == [] || w.CompareTo(ws[0]) <= 0)
    ensures SortedByName([w] + ws)
  {
    var r := [w] + ws;
    forall i, j | 0 <= i < j < |r| ensures r[i].CompareTo(r[j]) <= 0 {
      if i == 0 {
        assert r[j] == ws[j - 1];
        if j > 1 {
          assert ws[0].CompareTo(ws[j - 1]) <= 0;
        } else {
          CompareToZeroIff(ws[0].name, ws[0].name);
        }
        CompareToTransitive(w.name, ws[0].name, r[j].name);
      } else {
        assert r[i] == ws[i - 1] && r[j] == ws[j - 1];
      }
    }
  }

  /**
   * Inserting a worker whose name is above the first one's keeps that first worker in
   * front, and the rest sorted after it stays sorted.
   */
  lemma HeadStaysFirst(w: Worker, ws: seq<Worker>)
    requires SortedByName(ws) && ws != [] && w.CompareTo(ws[0]) > 0
    requires SortedByName(InsertByName(w, ws[1..]))
    ensures SortedByName(InsertByName(w, ws))
  {
    var tail := InsertByName(w, ws[1..]);
    assert InsertByName(w, ws) == [ws[0]] + tail;
    forall x | x in tail ensures ws[0].CompareTo(x) <= 0 {
      assert x in multiset(tail);
      assert x == w || x in ws[1..];
      if x == w {
        CompareToAntisymmetric(w.name, ws[0].name);
      } else {
        var k :| 0 <= k < |ws[1..]| && ws[1..][k] == x;
        assert ws[k + 1] == x;
      }
    }
    ConsSorted(ws[0], tail);
  }

  /** A worker whose name is not above any name of a sorted list can go in front of it. */
  lemma ConsSorted(x: Worker, tail: seq<Worker>)
    requires SortedByName(tail) && forall y :: y in tail ==> x.CompareTo(y) <= 0
    ensures SortedByName([x] + tail)
  {
    var r := [x] + tail;
    forall i, j | 0 <= i < j < |r| ensures r[i].CompareTo(r[j]) <= 0 {
      if i == 0 {
        assert r[j] == tail[j - 1] && tail[j - 1] in tail;
      } else {
        assert r[i] == tail[i - 1] && r[j] == tail[j - 1];
      }
    }
  }

  /** The sort leaves the list non-decreasing by name. */
  lemma {:induction false} SortIsSorted(ws: seq<Worker>)
    ensures SortedByName(StableSortByName(ws))
  {
    if ws != [] {
      SortIsSorted(ws[1..]);
      InsertKeepsSorted(ws[0], StableSortByName(ws[1..]));
    }
  }

  /** The workers with the given name, in list order. */
  function WithName(ws: seq<Worker>, name: string): (r: seq<Worker>)
    ensures |r| <= |ws|
  {
    if ws == [] then []
    else (if ws[0].name == name then [ws[0]] else []) + WithName(ws[1..], name)
  }

  /** WithName over a list given as its first element and the rest. */
  lemma WithNameCons(x: Worker, ws: seq<Worker>, name: string)
    ensures WithName([x] + ws, name) == (if x.name == name then [x] else []) + WithName(ws, name)
  {
    assert ([x] + ws)[1..] == ws;
  }

  lemma {:induction false} InsertWithName(w: Worker, ws: seq<Worker>, name: string)
    requires SortedByName(ws)
    ensures WithName(InsertByName(w, ws), name) == (if w.name == name then [w] else []) + WithName(ws, name)
  {
    if ws == [] || w.CompareTo(ws[0]) <= 0 {
      WithNameCons(w, ws, name);
    } else {
      var rest := ws[1..];
      SortedTail(ws);
      InsertWithName(w, rest, name);
      assert InsertByName(w, ws) == [ws[0]] + InsertByName(w, rest);
      WithNameCons(ws[0], InsertByName(w, rest), name);
      WithNameCons(ws[0], rest, name);
      assert ws == [ws[0]] + rest;
      if w.name == name {
        // ws[0] sorts strictly before w, so it does not share w's name
        NamesDifferWhenAbove(w, ws[0]);
        assert WithName(ws, name) == WithName(rest, name);
      }
    }
  }

  lemma NamesDifferWhenAbove(w: Worker, x: Worker)
    requires w.CompareTo(x) > 0
    ensures w.name != x.name
  {
    CompareToZeroIff(w.name, x.name);
  }

  /** Stability: the workers sharing any one name keep their relative order. */
  lemma {:induction false} SortIsStable(ws: seq<Worker>, name: string)
    ensures WithName(StableSortByName(ws), name) == WithName(ws, name)
  {
    if ws != [] {
      SortIsStable(ws[1..], name);
      SortIsSorted(ws[1..]);
      InsertWithName(ws[0], StableSortByName(ws[1..]), name);
    }
  }

  /** A list that is already sorted is left as it is, so sorting twice equals sorting once. */
  lemma {:induction false} SortOfSorted(ws: seq<Worker>)
    requires SortedByName(ws)
    ensures StableSortByName(ws) == ws
  {
    if ws != [] {
      SortedTail(ws);
      SortOfSorted(ws[1..]);
    }
  }

  lemma SortIdempotent(ws: seq<Worker>)
    ensures StableSortByName(StableSortByName(ws)) == StableSortByName(ws)
  {
    SortIsSorted(ws);
    SortOfSorted(StableSortByName(ws));
  }

  // ---------------------------------------------------------------- removeGreater

  /** removeIf(worker -> pivot.compareTo(worker) > 0): keeps the workers whose name is not below the pivot's. */
  function Survivors(pivot: Worker, ws: seq<Worker>): (r: seq<Worker>)
    ensures |r| <= |ws|
  {
    if ws == [] then []
    else (if pivot.CompareTo(ws[0]) > 0 then [] else [ws[0]]) + Survivors(pivot, ws[1..])
  }

  /** A worker survives iff it was in the list and the pivot's name is not greater than its own. */
  lemma {:induction false} SurvivorsMembers(pivot: Worker, ws: seq<Worker>)
    ensures forall w :: w in Survivors(pivot, ws) <==> w in ws && pivot.CompareTo(w) <= 0
  {
    if ws != [] {
      SurvivorsMembers(pivot, ws[1..]);
      assert ws == [ws[0]] + ws[1..];
    }
  }

  /** Removal works piecewise, so survivors keep their relative order. */
  lemma {:induction false} SurvivorsConcat(pivot: Worker, a: seq<Worker>, b: seq<Worker>)
    ensures Survivors(pivot, a + b) == Survivors(pivot, a) + Survivors(pivot, b)
  {
    if a == [] {
      assert a + b == b;
    } else {
      var x, tail := a[0], a[1..];
      assert a == [x] + tail;
      AppendAssociative([x], tail, b);
      SurvivorsCons(pivot, x, tail + b);
      SurvivorsCons(pivot, x, tail);
      SurvivorsConcat(pivot, tail, b);
      var keep := if pivot.CompareTo(x) > 0 then [] else [x];
      AppendAssociative(keep, Survivors(pivot, tail), Survivors(pivot, b));
    }
  }

  lemma SurvivorsCons(pivot: Worker, x: Worker, rest: seq<Worker>)
    ensures Survivors(pivot, [x] + rest) == (if pivot.CompareTo(x) > 0 then [] else [x]) + Survivors(pivot, rest)
  {
    assert ([x] + rest)[1..] == rest;
  }

  /** Every worker whose name is smaller than the pivot's goes, and none of the others. */
  lemma {:induction false} SurvivorsCount(pivot: Worker, ws: seq<Worker>)
    ensures multiset(Survivors(pivot, ws)) + multiset(Removed(pivot, ws)) == multiset(ws)
  {
    if ws != [] {
      var rest := ws[1..];
      SurvivorsCount(pivot, rest);
      assert ws == [ws[0]] + rest;
      if pivot.CompareTo(ws[0]) > 0 {
        assert Survivors(pivot, ws) == Survivors(pivot, rest);
        assert Removed(pivot, ws) == [ws[0]] + Removed(pivot, rest);
      } else {
        assert Survivors(pivot, ws) == [ws[0]] + Survivors(pivot, rest);
        assert Removed(pivot, ws) == Removed(pivot, rest);
      }
    }
  }

  /** The workers removeGreater takes out. */
  function Removed(pivot: Worker, ws: seq<Worker>): (r: seq<Worker>)
    ensures forall w :: w in r ==> pivot.CompareTo(w) > 0
  {
    if ws == [] then []
    else (if pivot.CompareTo(ws[0]) > 0 then [ws[0]] else []) + Removed(pivot, ws[1..])
  }

  // ---------------------------------------------------------------- status queries

  /** The workers whose status ordinal is strictly above `status`, in list order. */
  function StatusAbove(status: Status, ws: seq<Worker>): (r: seq<Worker>)
    ensures |r| <= |ws|
  {
    if ws == [] then []
    else (if status.Ordinal() < ws[0].status.Ordinal() then [ws[0]] else []) + StatusAbove(status, ws[1..])
  }

  /** The filter keeps exactly the workers whose status ordinal is strictly greater. */
  lemma {:induction false} StatusAboveMembers(status: Status, ws: seq<Worker>)
    ensures forall w :: w in StatusAbove(status, ws) <==> w in ws && status.Ordinal() < w.status.Ordinal()
  {
    if ws != [] {
      StatusAboveMembers(status, ws[1..]);
      assert ws == [ws[0]] + ws[1..];
    }
  }

  lemma {:induction false} StatusAboveConcat(status: Status, a: seq<Worker>, b: seq<Worker>)
    ensures StatusAbove(status, a + b) == StatusAbove(status, a) + StatusAbove(status, b)
  {
    if a == [] {
      assert a + b == b;
    } else {
      var x, tail := a[0], a[1..];
      assert a == [x] + tail;
      AppendAssociative([x], tail, b);
      StatusAboveCons(status, x, tail + b);
      StatusAboveCons(status, x, tail);
      StatusAboveConcat(status, tail, b);
      var keep := if status.Ordinal() < x.status.Ordinal() then [x] else [];
      AppendAssociative(keep, StatusAbove(status, tail), StatusAbove(status, b));
    }
  }

  lemma StatusAboveCons(status: Status, x: Worker, rest: seq<Worker>)
    ensures StatusAbove(status, [x] + rest) == (if status.Ordinal() < x.status.Ordinal() then [x] else []) + StatusAbove(status, rest)
  {
    assert ([x] + rest)[1..] == rest;
  }

  /** Nothing ranks above PROBATION, and above HIRED everything but HIRED does. */
  lemma StatusAboveExtremes(ws: seq<Worker>)
    ensures StatusAbove(Probation, ws) == []
    ensures forall w :: w in StatusAbove(Hired, ws) <==> w in ws && w.status != Hired
  {
    StatusAboveMembers(Probation, ws);
    StatusAboveMembers(Hired, ws);
    if StatusAbove(Probation, ws) != [] {
      assert StatusAbove(Probation, ws)[0] in StatusAbove(Probation, ws);
    }
  }

  /** How many workers have the given status. */
  function CountStatus(ws: seq<Worker>, status: Status): (n: nat)
    ensures n <= |ws|
    ensures n > 0 <==> exists w :: w in ws && w.status == status
  {
    if ws == [] then 0
    else (if ws[0].status == status then 1 else 0) + CountStatus(ws[1..], status)
  }

  /** The groups of gropByStatus partition the list: the counts add up to its size. */
  lemma {:induction false} CountsSumToSize(ws: seq<Worker>)
    ensures CountStatus(ws, Hired) + CountStatus(ws, RecommendedForPromotion)
          + CountStatus(ws, Regular) + CountStatus(ws, Probation) == |ws|
  {
    if ws != [] {
      CountsSumToSize(ws[1..]);
    }
  }

  // ---------------------------------------------------------------- salary and ids

  /** The salary of Collections.min(list, comparing(getSalary)). */
  function MinSalary(ws: seq<Worker>): (m: real)
    requires ws != []
    ensures forall w :: w in ws ==> m <= w.salary
    ensures exists w :: w in ws && w.salary == m
  {
    if |ws| == 1 then ws[0].salary
    else
      var rest := MinSalary(ws[1..]);
      assert forall w :: w in ws[1..] ==> w in ws;
      if ws[0].salary <= rest then ws[0].salary else rest
  }

  /** The list after updateAllIDs: element i gets id i+1 and nothing else changes. */
  function Renumbered(ws: seq<Worker>): (r: seq<Worker>)
    ensures |r| == |ws|
    ensures forall i :: 0 <= i < |ws| ==> r[i] == ws[i].SetID(i + 1)
  {
    seq(|ws|, i requires 0 <= i < |ws| => ws[i].SetID(i + 1))
  }

  /** After renumbering the ids are exactly 1..N, and renumbering again changes nothing. */
  lemma RenumberedIds(ws: seq<Worker>)
    ensures forall i :: 0 <= i < |ws| ==> Renumbered(ws)[i].id == i + 1
    ensures Renumbered(Renumbered(ws)) == Renumbered(ws)
  {
  }

  /**
   * How updateByID ended: normally (Updated, or NoSuchWorker after printing that there
   * is no such worker), or by an exception it does not catch: the NumberFormatException
   * of setSalary (NotANumber), or any other (Uncaught).
   */
  datatype Update = Updated | NoSuchWorker | NotANumber | Uncaught

  /**
   * What updateByID(id) reports, and the list and the unread input it leaves, given what
   * reading a worker would give; nothing is read when `id > size`. The readers run while
   * the arguments of `set(id - 1, …)` are evaluated, so their exceptions come before the
   * index is checked.
   */
  function Updating(id: int, workers: seq<Worker>, lines: seq<string>, read: (Read<Draft>, seq<string>)): (r: (Update, seq<Worker>, seq<string>))
  {
    if id > |workers| then (NoSuchWorker, workers, lines)
    else if read.0.Invalid? then (NoSuchWorker, workers, read.1)
    else if read.0.Escaped? && read.0.cause == NumberFormat then (NotANumber, workers, read.1)
    else if read.0.Escaped? || id < 1 then (Uncaught, workers, read.1)
    else (Updated, workers[id - 1 := WorkerWithId(id, read.0.value)], read.1)
  }

  class CollectionControl {
    /** The ArrayList workersCollection. */
    var workers: seq<Worker>
    /** Worker.idCounter: the id the last auto-id worker received. */
    var idCounter: Int32
    /** BufferOfCommandMap, null until CommandControl hands over its map. */
    var bufferOfCommandMap: CommandMap?
    const communicationControl: CommunicationControl

    constructor(communicationControl: CommunicationControl)
      ensures workers == [] && idCounter == 0 && bufferOfCommandMap == null
      ensures this.communicationControl == communicationControl
    {
      workers := [];
      idCounter := 0;
      bufferOfCommandMap := null;
      this.communicationControl := communicationControl;
    }

    /** The auto-id constructor `new Worker(...)`: the id is `++idCounter`. */
    method NewWorker(d: Draft) returns (w: Worker)
      modifies this`idCounter
      ensures idCounter == Increment(old(idCounter))
      ensures w == WorkerWithId(idCounter, d)
    {
      idCounter := Increment(idCounter);
      w := WorkerWithId(idCounter, d);
    }

    method GetMappingOfCommands(commands: CommandMap)
      modifies this`bufferOfCommandMap
      ensures bufferOfCommandMap == commands
    {
      bufferOfCommandMap := commands;
    }

    method SendCommandMap() returns (commands: CommandMap?)
      ensures commands == bufferOfCommandMap
    {
      commands := bufferOfCommandMap;
    }

    method Clear()
      modifies this`workers
      ensures workers == []
    {
      workers := [];
    }

    method AddToCollection(w: Worker)
      modifies this`workers
      ensures workers == old(workers) + [w]
    {
      workers := workers + [w];
    }

    /** Collections.sort: a stable sort by name, so a sorted permutation of the list. */
    method Sort()
      modifies this`workers
      ensures workers == StableSortByName(old(workers))
      ensures SortedByName(workers) && multiset(workers) == multiset(old(workers))
    {
      workers := StableSortByName(workers);
      SortIsSorted(old(workers));
    }

    /** removeIf(worker -> pivot.compareTo(worker) > 0). */
    method RemoveGreater(pivot: Worker)
      modifies this`workers
      ensures workers == Survivors(pivot, old(workers))
      ensures forall w :: w in workers <==> w in old(workers) && pivot.CompareTo(w) <= 0
    {
      SurvivorsMembers(pivot, workers);
      workers := Survivors(pivot, workers);
    }

    /**
     * filterGreaterThanStatus: Status.valueOf(line.toUpperCase()), then the workers
     * whose status ordinal is larger, in list order; None is IllegalArgumentException.
     */
    method FilterGreaterThanStatus(line: string) returns (r: Option<seq<Worker>>)
      ensures r.None? <==> StatusValueOf(ToUpperCase(line)).None?
      ensures r.Some? ==> r.value == StatusAbove(StatusValueOf(ToUpperCase(line)).value, workers)
    {
      var status := StatusValueOf(ToUpperCase(line));
      if status.None? {
        return None;
      }
      var workerList := [];
      var i := 0;
      while i < |workers|
        invariant 0 <= i <= |workers|
        invariant workerList == StatusAbove(status.value, workers[..i])
      {
        if status.value.Ordinal() < workers[i].status.Ordinal() {
          workerList := workerList + [workers[i]];
        }
        StatusAboveConcat(status.value, workers[..i], [workers[i]]);
        assert workers[..i + 1] == workers[..i] + [workers[i]];
        i := i + 1;
      }
      assert workers[..i] == workers;
      r := Some(workerList);
    }

    /** gropByStatus: the number of workers per status, for the statuses that occur. */
    method GropByStatus() returns (groups: map<Status, nat>)
      ensures forall s :: s in groups <==> exists w :: w in workers && w.status == s
      ensures forall s :: s in groups ==> groups[s] == CountStatus(workers, s)
    {
      groups := map[];
      var i := 0;
      while i < |StatusValues|
        invariant 0 <= i <= |StatusValues|
        invariant forall s :: s in groups <==> s in StatusValues[..i] && CountStatus(workers, s) > 0
        invariant forall s :: s in groups ==> groups[s] == CountStatus(workers, s)
      {
        var s := StatusValues[i];
        var n := CountStatus(workers, s);
        if n > 0 {
          groups := groups[s := n];
        }
        assert StatusValues[..i + 1] == StatusValues[..i] + [s];
        i := i + 1;
      }
      assert StatusValues[..i] == StatusValues;
      forall s: Status ensures s in groups <==> exists w :: w in workers && w.status == s {
        ValuesAreComplete(s, Director);
      }
    }

    /**
     * removeElementByID: ArrayList.remove(int) at zero-based index `id`. Out of range,
     * IndexOutOfBoundsException escapes (only NoSuchElementException is caught): false.
     */
    method RemoveElementByID(id: int) returns (removed: bool)
      modifies this`workers
      ensures removed <==> 0 <= id < |old(workers)|
      ensures removed ==> workers == old(workers)[..id] + old(workers)[id + 1..]
      ensures !removed ==> workers == old(workers)
    {
      if 0 <= id < |workers| {
        workers := workers[..id] + workers[id + 1..];
        removed := true;
      } else {
        removed := false;
      }
    }

    /** addIfSmallerSalary: appends when the list is empty or the salary is below the minimum. */
    method AddIfSmallerSalary(w: Worker) returns (added: bool)
      modifies this`workers
      ensures added <==> old(workers) == [] || w.salary < MinSalary(old(workers))
      ensures added ==> workers == old(workers) + [w]
      ensures !added ==> workers == old(workers)
    {
      if workers == [] || w.salary < MinSalary(workers) {
        workers := workers + [w];
        added := true;
      } else {
        added := false;
      }
    }

    /**
     * updateByID: with `id <= size` the fields are read and element id-1 is replaced by
     * a worker with that id; idCounter is untouched. A reader's InputException, or
     * `id > size` (checked before any reading), reports that there is no such worker.
     */
    method UpdateByID(id: int) returns (result: Update)
      requires !communicationControl.flagForScr
      modifies this`workers, communicationControl`flagForScr, communicationControl.source
      ensures !communicationControl.flagForScr
      ensures (result, workers, communicationControl.source.lines) ==
        Updating(id, old(workers), old(communicationControl.source.lines),
          DraftReader(communicationControl.loop, communicationControl.today, old(communicationControl.source.lines)))
    {
      if id > |workers| {
        return NoSuchWorker;
      }
      var draft := communicationControl.ReadDraft();
      if draft.Invalid? {
        return NoSuchWorker;
      }
      if draft.Escaped? {
        return if draft.cause == NumberFormat then NotANumber else Uncaught;
      }
      if id < 1 {
        // ArrayList.set(-1 or less, …) throws IndexOutOfBoundsException
        return Uncaught;
      }
      workers := workers[id - 1 := WorkerWithId(id, draft.value).SetID(id)];
      result := Updated;
    }

    /** updateAllIDs: element i gets id i+1. */
    method UpdateAllIDs()
      modifies this`workers
      ensures workers == Renumbered(old(workers))
    {
      var i := 0;
      while i < |workers|
        invariant 0 <= i <= |workers| == |old(workers)|
        invariant forall k :: 0 <= k < i ==> workers[k] == old(workers)[k].SetID(k + 1)
        invariant forall k :: i <= k < |workers| ==> workers[k] == old(workers)[k]
      {
        workers := workers[i := workers[i].SetID(i + 1)];
        i := i + 1;
      }
    }
  }
}

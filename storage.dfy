/** The in-memory capture store: a map from id to capture and the next id to hand out. */
module Storage {
  import opened Wrappers
  import opened Schema

  /** The listing order: newer captures first; among captures with the same timestamp, the one
      created first (smaller id) comes first, because the sort is stable and the map yields its
      values in insertion order, which is increasing id order. */
  predicate ListedBefore(a: Capture, b: Capture): (r: bool)
    ensures a.timestamp > b.timestamp ==> r
    ensures a.timestamp < b.timestamp ==> !r
    ensures a.timestamp == b.timestamp ==> (r <==> a.id < b.id)
  {
    a.timestamp > b.timestamp || (a.timestamp == b.timestamp && a.id < b.id)
  }

  predicate NewestFirst(list: seq<Capture>) {
    forall i, j :: 0 <= i < j < |list| ==> ListedBefore(list[i], list[j])
  }

  /** The listing order is a strict total order on captures with distinct ids: never both ways,
      and one of the two for any two different ids. */
  lemma ListedBeforeIsStrictTotal(a: Capture, b: Capture, c: Capture)
    ensures !(ListedBefore(a, b) && ListedBefore(b, a))
    ensures a.id != b.id ==> ListedBefore(a, b) || ListedBefore(b, a)
    ensures ListedBefore(a, b) && ListedBefore(b, c) ==> ListedBefore(a, c)
  {
  }

  /** `list` with `c` put in its place; `c` is created after every capture in `list`. */
  function InsertNewest(list: seq<Capture>, c: Capture): (r: seq<Capture>)
    requires NewestFirst(list)
    requires forall x :: x in list ==> x.id < c.id
    ensures NewestFirst(r)
    ensures |r| == |list| + 1
    ensures forall x :: x in r <==> x == c || x in list
  {
    if list == [] || ListedBefore(c, list[0]) then
      [c] + list
    else
      var rest := InsertNewest(list[1..], c);
      assert ListedBefore(list[0], c);
      assert forall x :: x in rest ==> ListedBefore(list[0], x);
      [list[0]] + rest
  }

  /** The ids of the stored captures below `bound`. */
  ghost function IdsBelow(captures: map<int, Capture>, bound: int): set<int> {
    set id | id in captures && id < bound
  }

  /** `list` holds, newest first, exactly the captures stored under ids below `bound`. */
  ghost predicate ListsBelow(list: seq<Capture>, captures: map<int, Capture>, bound: int) {
    && NewestFirst(list)
    && (forall id :: id in captures && id < bound ==> captures[id] in list)
    && (forall c :: c in list ==> c.id in captures && c.id < bound && captures[c.id] == c)
    && |list| == |IdsBelow(captures, bound)|
  }

  /** Taking in the capture stored under `bound`, if there is one, extends the listing by one id. */
  lemma ListsBelowStep(list: seq<Capture>, captures: map<int, Capture>, bound: int)
    requires ListsBelow(list, captures, bound)
    requires bound in captures ==> captures[bound].id == bound
    ensures bound in captures ==> ListsBelow(InsertNewest(list, captures[bound]), captures, bound + 1)
    ensures bound !in captures ==> ListsBelow(list, captures, bound + 1)
  {
    if bound in captures {
      assert IdsBelow(captures, bound + 1) == IdsBelow(captures, bound) + {bound};
    } else {
      assert IdsBelow(captures, bound + 1) == IdsBelow(captures, bound);
    }
  }

  class MemStorage {
    var captures: map<int, Capture>
    var currentId: int

    /** Every stored capture sits under its own id, below the next id to hand out, and carries no
        plate reading, since no operation of the store ever sets one. */
    ghost predicate Valid()
      reads this
    {
      && 1 <= currentId
      && forall id :: id in captures ==>
           && 1 <= id < currentId
           && captures[id].id == id
           && captures[id].plateNumber == None
           && captures[id].confidence == None
    }

    constructor ()
      ensures Valid()
      ensures captures == map[] && currentId == 1
    {
      captures := map[];
      currentId := 1;
    }

    /** Hands out the next id, stores a new capture under it and returns it. The id was never
        used before: every stored id, and every id handed out earlier, is below it. */
    method CreateCapture(insert: InsertCapture, now: int) returns (capture: Capture)
      requires Valid()
      modifies this
      ensures Valid()
      ensures capture == Capture(old(currentId), insert.imageData, now, None, None)
      ensures capture.id !in old(captures)
      ensures captures == old(captures)[capture.id := capture]
      ensures currentId == old(currentId) + 1
    {
      var id := currentId;
      currentId := currentId + 1;
      capture := Capture(id, insert.imageData, now, None, None);
      captures := captures[id := capture];
    }

    /** Removes the capture stored under `id`; an absent id leaves the store as it was. */
    method DeleteCapture(id: int)
      requires Valid()
      modifies this
      ensures Valid()
      ensures captures == old(captures) - {id}
      ensures id !in old(captures) ==> captures == old(captures)
      ensures currentId == old(currentId)
    {
      captures := captures - {id};
    }

    /** Every stored capture exactly once, newest first. */
    method GetCaptures() returns (list: seq<Capture>)
      requires Valid()
      ensures forall id :: id in captures ==> captures[id] in list
      ensures forall c :: c in list ==> c.id in captures && captures[c.id] == c
      ensures |list| == |captures|
      ensures NewestFirst(list)
    {
      list := [];
      var k := 1;
      while k < currentId
        invariant 1 <= k <= currentId
        invariant ListsBelow(list, captures, k)
      {
        ListsBelowStep(list, captures, k);
        if k in captures {
          list := InsertNewest(list, captures[k]);
        }
        k := k + 1;
      }
      assert IdsBelow(captures, k) == captures.Keys;
    }
  }

  /** Deleting a capture and creating another never brings its id back: the second capture gets
      a larger id and the first stays gone. */
  method CreateDeleteCreate(s: MemStorage, a: InsertCapture, b: InsertCapture, t1: int, t2: int)
    returns (first: Capture, second: Capture)
    requires s.Valid()
    modifies s
    ensures s.Valid()
    ensures first.id < second.id
    ensures first.id !in s.captures && second.id in s.captures && s.captures[second.id] == second
    ensures second.imageData == b.imageData && second.plateNumber == None
  {
    first := s.CreateCapture(a, t1);
    s.DeleteCapture(first.id);
    second := s.CreateCapture(b, t2);
  }
}

/** The configuration model of the amphipod burrow: an 11-cell hallway above
    four side rooms of equal depth. A cell holds one of the letters A, B, C, D
    or the empty marker '.'; index 0 of a room is its top cell, next to the
    hallway. */
module Burrow {

  datatype Option<T> = None | Some(value: T)

  /** A configuration: the hallway string and the 4-tuple of room strings. */
  datatype State = State(hall: seq<char>, rooms: seq<seq<char>>)

  /** A configuration together with the energy spent to reach it; this is both
      what a move returns and what the search queue holds. */
  datatype Entry = Entry(cost: nat, state: State)

  const Empty: char := '.'
  const HallLength: nat := 11
  const RoomCount: nat := 4
  const ForbiddenHallPositions: seq<nat> := [2, 4, 6, 8]

  predicate IsLetter(c: char) {
    c == 'A' || c == 'B' || c == 'C' || c == 'D'
  }

  predicate IsCell(c: char) {
    c == Empty || IsLetter(c)
  }

  /** Energy spent per step by a token of letter c. */
  function EnergyCost(c: char): (e: nat)
    requires IsLetter(c)
    ensures 1 <= e
  {
    if c == 'A' then 1 else if c == 'B' then 10 else if c == 'C' then 100 else 1000
  }

  function RoomToLetter(i: nat): (c: char)
    requires i < RoomCount
    ensures IsLetter(c)
  {
    if i == 0 then 'A' else if i == 1 then 'B' else if i == 2 then 'C' else 'D'
  }

  /** The destination room of a letter; the two maps are inverse to each other. */
  function LetterToRoom(c: char): (i: nat)
    requires IsLetter(c)
    ensures i < RoomCount && RoomToLetter(i) == c
  {
    if c == 'A' then 0 else if c == 'B' then 1 else if c == 'C' then 2 else 3
  }

  /** The hallway position in front of room i; the door of every room is one
      of the forbidden hallway positions. */
  function Door(i: nat): (d: nat)
    ensures i < RoomCount ==> d in ForbiddenHallPositions
  {
    2 + i * 2
  }

  /** The forbidden hallway positions are exactly the four doors. */
  lemma ForbiddenAreDoors(p: nat)
    ensures p in ForbiddenHallPositions <==> exists i :: 0 <= i < RoomCount && Door(i) == p
  {
    if p in ForbiddenHallPositions {
      assert Door((p - 2) / 2) == p;
    }
  }

  /** Going from a room to its letter and back returns the same room. */
  lemma RoomLetterRoundTrip(i: nat)
    requires i < RoomCount
    ensures LetterToRoom(RoomToLetter(i)) == i
  {
  }

  function Dist(a: int, b: int): nat {
    if a < b then b - a else a - b
  }

  function Repeat(c: char, n: nat): (r: seq<char>)
    ensures |r| == n
  {
    seq(n, _ => c)
  }

  /** Shape of a configuration: hallway of 11 cells, 4 rooms, every cell '.' or a letter. */
  predicate WellFormed(s: State) {
    && |s.hall| == HallLength
    && |s.rooms| == RoomCount
    && (forall p :: 0 <= p < |s.hall| ==> IsCell(s.hall[p]))
    && (forall i, k :: 0 <= i < |s.rooms| && 0 <= k < |s.rooms[i]| ==> IsCell(s.rooms[i][k]))
  }

  /** The multiset of all cells, hallway and rooms together ('.' included). */
  function Inventory(s: State): multiset<char>
    requires |s.rooms| == RoomCount
  {
    multiset(s.hall) + multiset(s.rooms[0]) + multiset(s.rooms[1])
      + multiset(s.rooms[2]) + multiset(s.rooms[3])
  }

  predicate SameRoomSizes(s: State, t: State) {
    |s.rooms| == |t.rooms| && forall i :: 0 <= i < |s.rooms| ==> |s.rooms[i]| == |t.rooms[i]|
  }

  /** Every room has `depth` cells and every letter occurs exactly `depth` times. */
  predicate Balanced(s: State, depth: nat)
    requires WellFormed(s)
  {
    && (forall i :: 0 <= i < RoomCount ==> |s.rooms[i]| == depth)
    && (forall c :: IsLetter(c) ==> Inventory(s)[c] == depth)
  }

  /** The goal test: the rooms are "AA..", "BB..", "CC..", "DD.."; the hallway is not looked at. */
  function CheckGoal(rooms: seq<seq<char>>, depth: nat): (b: bool)
    ensures b <==> |rooms| == RoomCount && forall i :: 0 <= i < RoomCount ==>
                     |rooms[i]| == depth && forall k :: 0 <= k < depth ==> rooms[i][k] == RoomToLetter(i)
  {
    var goal := [Repeat('A', depth), Repeat('B', depth), Repeat('C', depth), Repeat('D', depth)];
    assert (|rooms| == RoomCount && forall i :: 0 <= i < RoomCount ==>
              |rooms[i]| == depth && forall k :: 0 <= k < depth ==> rooms[i][k] == RoomToLetter(i))
           ==> rooms == goal by {
      if |rooms| == RoomCount && forall i :: 0 <= i < RoomCount ==>
           |rooms[i]| == depth && forall k :: 0 <= k < depth ==> rooms[i][k] == RoomToLetter(i) {
        forall i | 0 <= i < RoomCount ensures rooms[i] == goal[i] {
          assert goal[i] == Repeat(RoomToLetter(i), depth);
        }
      }
    }
    rooms == goal
  }

  lemma {:induction false} RepeatCount(c: char, n: nat, x: char)
    ensures multiset(Repeat(c, n))[x] == if x == c then n else 0
  {
    if n > 0 {
      RepeatCount(c, n - 1, x);
      assert Repeat(c, n) == Repeat(c, n - 1) + [c];
    }
  }

  /** In a goal configuration of a balanced puzzle the hallway is empty: the
      rooms already hold every token. */
  lemma GoalClearsHallway(s: State, depth: nat)
    requires WellFormed(s) && Balanced(s, depth) && CheckGoal(s.rooms, depth)
    ensures forall p :: 0 <= p < |s.hall| ==> s.hall[p] == Empty
  {
    forall p | 0 <= p < |s.hall| ensures s.hall[p] == Empty {
      var c := s.hall[p];
      if c != Empty {
        assert IsLetter(c);
        forall i | 0 <= i < RoomCount
          ensures multiset(s.rooms[i])[c] == if RoomToLetter(i) == c then depth else 0
        {
          assert s.rooms[i] == Repeat(RoomToLetter(i), depth);
          RepeatCount(RoomToLetter(i), depth, c);
        }
        assert false;
      }
    }
  }
}

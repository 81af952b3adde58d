/** The move generator: which tokens may leave a room for the hallway, which
    may enter their own room from the hallway, and the configuration and cost
    each such move produces. */
module Moves {
  import opened Burrow

  /** A room-to-hallway move as the generator emits it: the top token `ch` of
      room `roomIndex`, at index `depthInRoom`, parks at hallway cell `pos`. */
  datatype RoomMove = RoomMove(roomIndex: nat, pos: nat, ch: char, depthInRoom: nat, door: nat)

  /** A hallway-to-room move: the token `ch` at hallway cell `pos` enters room `roomIndex`. */
  datatype HallMove = HallMove(pos: nat, ch: char, roomIndex: nat, door: nat)

  datatype Move = Out(exit: RoomMove) | In(entry: HallMove)

  /** Hallway cells lo .. hi-1 are all empty. */
  predicate Vacant(hall: seq<char>, lo: int, hi: int) {
    0 <= lo <= hi <= |hall| && forall p :: lo <= p < hi ==> hall[p] == Empty
  }

  /** Every cell of the room is empty or holds letter c. */
  predicate HoldsOnly(room: seq<char>, c: char) {
    forall k :: 0 <= k < |room| ==> room[k] == Empty || room[k] == c
  }

  /** d is the index of the topmost occupied cell of the room. */
  predicate IsTop(room: seq<char>, d: nat) {
    d < |room| && room[d] != Empty && forall k :: 0 <= k < d ==> room[k] == Empty
  }

  /** The legal room-to-hallway moves. Only a room that holds some foreign
      letter is left, and only by its topmost token. The target cell is not in
      front of a door, and it and every cell between it and the door are empty
      (the door cell itself is not looked at). */
  predicate IsRoomMove(s: State, m: RoomMove) {
    && |s.hall| == HallLength
    && |s.rooms| == RoomCount
    && m.roomIndex < RoomCount
    && m.door == Door(m.roomIndex)
    && !HoldsOnly(s.rooms[m.roomIndex], RoomToLetter(m.roomIndex))
    && IsTop(s.rooms[m.roomIndex], m.depthInRoom)
    && m.ch == s.rooms[m.roomIndex][m.depthInRoom]
    && m.pos < HallLength
    && m.pos != m.door
    && m.pos !in ForbiddenHallPositions
    && (if m.pos < m.door then Vacant(s.hall, m.pos, m.door) else Vacant(s.hall, m.door + 1, m.pos + 1))
  }

  /** The legal hallway-to-room moves. A token goes only to its own room, only
      when that room holds no foreign letter, and only when the hallway path
      is clear: the cells after its own position up to and including the door. */
  predicate IsHallMove(s: State, m: HallMove) {
    && |s.hall| == HallLength
    && |s.rooms| == RoomCount
    && m.pos < HallLength
    && m.ch == s.hall[m.pos]
    && IsLetter(m.ch)
    && m.roomIndex == LetterToRoom(m.ch)
    && m.door == Door(m.roomIndex)
    && HoldsOnly(s.rooms[m.roomIndex], m.ch)
    && (if m.pos < m.door then Vacant(s.hall, m.pos + 1, m.door + 1) else Vacant(s.hall, m.door, m.pos))
  }

  /** Every room->hallway move of the configuration, rooms in order, for each
      room first the cells left of the door walking outwards, then those right of it. */
  method PossibleMovesFromRooms(s: State) returns (result: seq<RoomMove>)
    requires |s.hall| == HallLength && |s.rooms| == RoomCount
    ensures forall m :: m in result <==> IsRoomMove(s, m)
  {
    result := [];
    for roomIndex := 0 to RoomCount
      invariant forall m :: m in result <==> IsRoomMove(s, m) && m.roomIndex < roomIndex
    {
      var room := s.rooms[roomIndex];
      if HoldsOnly(room, RoomToLetter(roomIndex)) {
        continue;
      }
      var door := Door(roomIndex);
      ghost var foreign :| 0 <= foreign < |room| && room[foreign] != Empty
                           && room[foreign] != RoomToLetter(roomIndex);
      var d := 0;
      while room[d] == Empty
        invariant d <= foreign
        invariant forall k :: 0 <= k < d ==> room[k] == Empty
        decreases foreign - d
      {
        d := d + 1;
      }
      assert IsTop(room, d);
      var ch := room[d];

      var pos := door - 1;
      while pos >= 0
        invariant -1 <= pos < door
        invariant Vacant(s.hall, pos + 1, door)
        invariant forall m :: m in result <==>
                    (IsRoomMove(s, m) && (m.roomIndex < roomIndex || (m.roomIndex == roomIndex && pos < m.pos < door)))
      {
        if s.hall[pos] != Empty {
          break;
        }
        if pos !in ForbiddenHallPositions {
          result := result + [RoomMove(roomIndex, pos, ch, d, door)];
        }
        pos := pos - 1;
      }
      assert forall m :: m in result <==>
               (IsRoomMove(s, m) && (m.roomIndex < roomIndex || (m.roomIndex == roomIndex && m.pos < door)));

      pos := door + 1;
      while pos < HallLength
        invariant door < pos <= HallLength
        invariant Vacant(s.hall, door + 1, pos)
        invariant forall m :: m in result <==>
                    (IsRoomMove(s, m) && (m.roomIndex < roomIndex || (m.roomIndex == roomIndex && m.pos < pos)))
      {
        if s.hall[pos] != Empty {
          break;
        }
        if pos !in ForbiddenHallPositions {
          result := result + [RoomMove(roomIndex, pos, ch, d, door)];
        }
        pos := pos + 1;
      }
      assert forall m :: m in result <==> IsRoomMove(s, m) && m.roomIndex <= roomIndex;
    }
  }

  /** Every hallway->room move of the configuration, hallway cells left to right. */
  method PossibleMovesToRooms(s: State) returns (result: seq<HallMove>)
    requires |s.hall| == HallLength && |s.rooms| == RoomCount
    requires forall p :: 0 <= p < |s.hall| ==> IsCell(s.hall[p])
    ensures forall m :: m in result <==> IsHallMove(s, m)
  {
    result := [];
    for pos := 0 to HallLength
      invariant forall m :: m in result <==> IsHallMove(s, m) && m.pos < pos
    {
      var ch := s.hall[pos];
      if ch == Empty {
        continue;
      }
      var roomIndex := LetterToRoom(ch);
      var door := Door(roomIndex);
      if !HoldsOnly(s.rooms[roomIndex], ch) {
        continue;
      }
      var clear := if pos < door then Vacant(s.hall, pos + 1, door + 1) else Vacant(s.hall, door, pos);
      if !clear {
        continue;
      }
      result := result + [HallMove(pos, ch, roomIndex, door)];
    }
  }

  /** The configuration after a room->hallway move and the accumulated cost. */
  function MoveFromRoomToHall(s: State, m: RoomMove, cost: nat): (next: Entry)
    requires m.pos < |s.hall| && m.roomIndex < |s.rooms| && m.depthInRoom < |s.rooms[m.roomIndex]|
    requires IsLetter(m.ch)
    ensures next.cost >= cost + EnergyCost(m.ch)
    ensures |next.state.hall| == |s.hall| && SameRoomSizes(next.state, s)
  {
    var room := s.rooms[m.roomIndex];
    Entry(cost + (Dist(m.pos, m.door) + m.depthInRoom + 1) * EnergyCost(m.ch),
          State(s.hall[m.pos := m.ch], s.rooms[m.roomIndex := room[m.depthInRoom := Empty]]))
  }

  /** The deepest empty cell of a room: tokens stack from the bottom. */
  function DeepestEmpty(room: seq<char>): (idx: nat)
    requires Empty in room
    ensures idx < |room| && room[idx] == Empty
    ensures forall k :: idx < k < |room| ==> room[k] != Empty
  {
    if room[|room| - 1] == Empty then |room| - 1 else DeepestEmpty(room[..|room| - 1])
  }

  /** The configuration after a hallway->room move and the accumulated cost. */
  function HallToRoom(s: State, m: HallMove, cost: nat): (next: Entry)
    requires m.pos < |s.hall| && m.roomIndex < |s.rooms| && Empty in s.rooms[m.roomIndex]
    requires IsLetter(m.ch)
    ensures next.cost >= cost + EnergyCost(m.ch)
    ensures |next.state.hall| == |s.hall| && SameRoomSizes(next.state, s)
  {
    var room := s.rooms[m.roomIndex];
    var idx := DeepestEmpty(room);
    Entry(cost + (Dist(m.pos, m.door) + idx + 1) * EnergyCost(m.ch),
          State(s.hall[m.pos := Empty], s.rooms[m.roomIndex := room[idx := m.ch]]))
  }

  /** The token walks down into the deepest empty cell of its room. */
  method MoveFromHallToRoom(s: State, m: HallMove, cost: nat) returns (next: Entry)
    requires m.pos < |s.hall| && m.roomIndex < |s.rooms| && Empty in s.rooms[m.roomIndex]
    requires IsLetter(m.ch)
    ensures next == HallToRoom(s, m, cost)
  {
    var r := s.rooms[m.roomIndex];
    ghost var hole :| 0 <= hole < |r| && r[hole] == Empty;
    var idx := |r| - 1;
    while r[idx] != Empty
      invariant hole <= idx < |r|
      invariant forall k :: idx < k < |r| ==> r[k] != Empty
      decreases idx
    {
      idx := idx - 1;
    }
    var newRooms := s.rooms[m.roomIndex := r[idx := m.ch]];
    var newHall := s.hall[m.pos := Empty];
    var newCost := cost + (Dist(m.pos, m.door) + idx + 1) * EnergyCost(m.ch);
    next := Entry(newCost, State(newHall, newRooms));
  }

  /** A move the search may take: emitted by the generator and, for a
      hallway->room move, with room to stack the token. */
  predicate Legal(s: State, mv: Move) {
    WellFormed(s) &&
    match mv
    case Out(m) => IsRoomMove(s, m)
    case In(m) => IsHallMove(s, m) && Empty in s.rooms[m.roomIndex]
  }

  /** The successor configuration of a legal move, at the accumulated cost. */
  function Step(s: State, mv: Move, cost: nat): (next: Entry)
    requires Legal(s, mv)
    ensures WellFormed(next.state) && SameRoomSizes(next.state, s)
    ensures next.cost > cost
  {
    match mv
    case Out(m) => MoveFromRoomToHall(s, m, cost)
    case In(m) => HallToRoom(s, m, cost)
  }

  /** A move's energy does not depend on the energy already spent: starting
      it later only shifts its cost. */
  lemma StepShift(s: State, mv: Move, c: nat, c': nat)
    requires Legal(s, mv) && c <= c'
    ensures Step(s, mv, c').state == Step(s, mv, c).state
    ensures Step(s, mv, c').cost == Step(s, mv, c).cost + (c' - c)
  {
  }

  /** Writing x over cell p swaps one occurrence of the old letter for x. */
  lemma UpdateSwaps(a: seq<char>, p: nat, x: char)
    requires p < |a|
    ensures multiset(a[p := x]) + multiset{a[p]} == multiset(a) + multiset{x}
  {
    assert a == a[..p] + [a[p]] + a[p + 1..];
    assert a[p := x] == a[..p] + [x] + a[p + 1..];
  }

  /** A change confined to the hallway and room i that keeps their joint
      contents keeps the inventory. */
  lemma InventoryOfSwap(s: State, t: State, i: nat)
    requires |s.rooms| == RoomCount && |t.rooms| == RoomCount && i < RoomCount
    requires forall j :: 0 <= j < RoomCount && j != i ==> t.rooms[j] == s.rooms[j]
    requires multiset(t.hall) + multiset(t.rooms[i]) == multiset(s.hall) + multiset(s.rooms[i])
    ensures Inventory(t) == Inventory(s)
  {
    if i == 0 {
      assert Inventory(t) == (multiset(t.hall) + multiset(t.rooms[0])) + multiset(s.rooms[1]) + multiset(s.rooms[2]) + multiset(s.rooms[3]);
    } else if i == 1 {
      assert Inventory(t) == (multiset(t.hall) + multiset(t.rooms[1])) + multiset(s.rooms[0]) + multiset(s.rooms[2]) + multiset(s.rooms[3]);
      assert Inventory(s) == (multiset(s.hall) + multiset(s.rooms[1])) + multiset(s.rooms[0]) + multiset(s.rooms[2]) + multiset(s.rooms[3]);
    } else if i == 2 {
      assert Inventory(t) == (multiset(t.hall) + multiset(t.rooms[2])) + multiset(s.rooms[0]) + multiset(s.rooms[1]) + multiset(s.rooms[3]);
      assert Inventory(s) == (multiset(s.hall) + multiset(s.rooms[2])) + multiset(s.rooms[0]) + multiset(s.rooms[1]) + multiset(s.rooms[3]);
    } else {
      assert Inventory(t) == (multiset(t.hall) + multiset(t.rooms[3])) + multiset(s.rooms[0]) + multiset(s.rooms[1]) + multiset(s.rooms[2]);
      assert Inventory(s) == (multiset(s.hall) + multiset(s.rooms[3])) + multiset(s.rooms[0]) + multiset(s.rooms[1]) + multiset(s.rooms[2]);
    }
  }

  /** A token leaving its room for an empty hallway cell keeps the inventory. */
  lemma ExitConserves(s: State, m: RoomMove, cost: nat)
    requires |s.rooms| == RoomCount && m.pos < |s.hall| && m.roomIndex < RoomCount
    requires m.depthInRoom < |s.rooms[m.roomIndex]| && IsLetter(m.ch)
    requires s.hall[m.pos] == Empty && s.rooms[m.roomIndex][m.depthInRoom] == m.ch
    ensures Inventory(MoveFromRoomToHall(s, m, cost).state) == Inventory(s)
  {
    UpdateSwaps(s.hall, m.pos, m.ch);
    UpdateSwaps(s.rooms[m.roomIndex], m.depthInRoom, Empty);
    InventoryOfSwap(s, MoveFromRoomToHall(s, m, cost).state, m.roomIndex);
  }

  /** A token leaving the hallway for an empty cell of its room keeps the inventory. */
  lemma EntryConserves(s: State, m: HallMove, cost: nat)
    requires |s.rooms| == RoomCount && m.pos < |s.hall| && m.roomIndex < RoomCount
    requires Empty in s.rooms[m.roomIndex] && IsLetter(m.ch) && s.hall[m.pos] == m.ch
    ensures Inventory(HallToRoom(s, m, cost).state) == Inventory(s)
  {
    UpdateSwaps(s.hall, m.pos, Empty);
    UpdateSwaps(s.rooms[m.roomIndex], DeepestEmpty(s.rooms[m.roomIndex]), m.ch);
    InventoryOfSwap(s, HallToRoom(s, m, cost).state, m.roomIndex);
  }

  /** Conservation: a legal move takes a letter out of one cell and puts it in
      an empty one, so the multiset of all cells is unchanged. */
  lemma StepConserves(s: State, mv: Move, cost: nat)
    requires Legal(s, mv)
    ensures Inventory(Step(s, mv, cost).state) == Inventory(s)
  {
    match mv
    case Out(m) =>
      assert s.hall[m.pos] == Empty;
      ExitConserves(s, m, cost);
    case In(m) =>
      EntryConserves(s, m, cost);
  }

  lemma {:induction false} CountAllSame(r: seq<char>, c: char)
    requires forall k :: 0 <= k < |r| ==> r[k] == c
    ensures multiset(r)[c] == |r|
  {
    if r != [] {
      CountAllSame(r[..|r| - 1], c);
      assert r == r[..|r| - 1] + [r[|r| - 1]];
    }
  }

  /** In a balanced configuration the room a hallway token may enter has an
      empty cell, so the stacking loop finds one. */
  lemma EntryRoomHasSpace(s: State, depth: nat, m: HallMove)
    requires WellFormed(s) && Balanced(s, depth) && IsHallMove(s, m)
    ensures Empty in s.rooms[m.roomIndex]
  {
    var room := s.rooms[m.roomIndex];
    if Empty !in room {
      CountAllSame(room, m.ch);
      assert false;
    }
  }

  /** The empty cells of a room form a prefix from the top. */
  predicate Stacked(room: seq<char>) {
    forall i, j :: 0 <= i < j < |room| && room[j] == Empty ==> room[i] == Empty
  }

  predicate AllStacked(s: State) {
    forall i :: 0 <= i < |s.rooms| ==> Stacked(s.rooms[i])
  }

  /** No token stands on a hallway cell in front of a door. */
  predicate DoorsClear(s: State) {
    forall p :: p in ForbiddenHallPositions ==> p < |s.hall| && s.hall[p] == Empty
  }

  /** Both kinds of move keep every room stacked from the bottom. */
  lemma StepKeepsStacked(s: State, mv: Move, cost: nat)
    requires Legal(s, mv) && AllStacked(s)
    ensures AllStacked(Step(s, mv, cost).state)
  {
    var t := Step(s, mv, cost).state;
    match mv
    case Out(m) =>
      assert Stacked(t.rooms[m.roomIndex]);
    case In(m) =>
      assert Stacked(t.rooms[m.roomIndex]);
  }

  /** Tokens never come to rest in front of a door. */
  lemma StepKeepsDoorsClear(s: State, mv: Move, cost: nat)
    requires Legal(s, mv) && DoorsClear(s)
    ensures DoorsClear(Step(s, mv, cost).state)
  {
  }
}

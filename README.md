# Amphipod burrow: uniform-cost search over burrow configurations

`run.py` computes the least energy needed to sort the amphipods of a burrow.
The burrow has an 11-cell hallway above four side rooms of equal depth. Each
token is one of the letters A, B, C, D, and a step costs that token 1, 10, 100
or 1000 energy. Two kinds of move exist:

- The topmost token of a room that still holds a foreign letter leaves for a
  hallway cell. The target may not be in front of a door (cells 2, 4, 6, 8),
  and the way there must be clear.
- A hallway token enters its own room. The room must hold no foreign letter
  and the hallway path must be clear. The token drops to the deepest empty
  cell.

`solve` is Dijkstra's algorithm over the configurations. A best-cost table
`seen` and a heap of (cost, configuration) entries drive it. It pops a
cheapest entry and skips it when it is stale. It returns the entry's cost when
the rooms are sorted, and otherwise pushes every successor that improves the
table. When the queue runs out it returns 0.

The model has three modules.

- `Burrow` (`burrow.dfy`) holds the configuration, the constants, the
  multiset inventory of all cells and the goal test.
- `Moves` (`moves.dfy`) holds the two move generators. Each is a method with
  the source's loops, `break` and `continue`, and each is proved to emit
  exactly the moves a declarative legality predicate (`IsRoomMove`,
  `IsHallMove`) admits. This module also holds the two successor
  constructors, with the stacking loop of `move_from_hall_to_room` as a method
  proved equal to a function, and the invariants every move keeps:
  conservation of the inventory, stacking from the bottom, and no token
  resting in front of a door.
- `Search` (`search.dfy`) models `seen` and the heap as the fields of a
  `Frontier` class: a `map` and a `multiset` that `PushState` and `PopMin`
  update in place. `Solve` is the pop-min loop. A ghost set of expanded
  configurations and a ghost map of move sequences witnessing each table
  entry prove its result. An `Answer` is the cost of some sequence of legal
  moves that reaches the goal, and no such sequence is cheaper. The answer 0
  comes from a start that is already sorted, or from a puzzle with no
  solution at all.

## Model

| member | source | states |
|---|---|---|
| Burrow.EnergyCost | run.py:4 | every letter spends at least 1 energy per step |
| Burrow.LetterToRoom | run.py:5-6 | a letter's destination room is in range and maps back to the same letter, so the two tables are inverse to each other |
| Burrow.RoomToLetter | run.py:6 | every room index is mapped to one of the letters A, B, C, D |
| Burrow.RoomLetterRoundTrip | run.py:5-6 | going from a room to its letter and back returns the same room, the converse of LetterToRoom's contract |
| Burrow.Door | run.py:56 | the door of each of the four rooms, `2 + 2 * room`, is one of the forbidden hallway positions |
| Burrow.ForbiddenAreDoors | run.py:7 | a hallway position is forbidden exactly when it is the door of one of the four rooms |
| Burrow.CheckGoal | run.py:20-21 | true exactly when there are four rooms and room i is `depth` copies of its own letter; the hallway is not looked at |
| Burrow.GoalClearsHallway | run.py:20-21 | in a goal configuration where every letter occurs `depth` times, every hallway cell is empty |
| Moves.PossibleMovesFromRooms | run.py:51-71 | emits a room-to-hallway move exactly when it is legal: the room holds a foreign letter; the token is the topmost one; the target is a hallway cell other than the door and not in front of any door; the target and every cell between it and the door are empty |
| Moves.PossibleMovesToRooms | run.py:73-86 | emits a hallway-to-room move exactly when the token's own room holds no foreign letter and every hallway cell after the token's position, up to and including the door, is empty, in both directions |
| Moves.MoveFromRoomToHall | run.py:28-36 | the successor keeps the hallway length and every room size, and costs at least one step of the token's energy more |
| Moves.DeepestEmpty | run.py:41-43 | the returned index is an empty cell of the room and no deeper cell is empty |
| Moves.HallToRoom | run.py:38-49 | the successor keeps the hallway length and every room size, and costs at least one step of the token's energy more |
| Moves.MoveFromHallToRoom | run.py:38-49 | the downward scan for an empty cell and the update compute exactly HallToRoom: the token goes into the deepest empty cell and its hallway cell is cleared |
| Moves.Step | run.py:28-49 | every legal move yields a well-formed configuration with the same room sizes, at a strictly greater cost |
| Moves.StepShift | run.py:35-48 | a move's energy does not depend on the energy already spent: a later start shifts the cost by the same amount and yields the same configuration |
| Moves.ExitConserves | run.py:28-36 | a token leaving its room for an empty hallway cell keeps the multiset of all cells |
| Moves.EntryConserves | run.py:38-49 | a token entering a room with an empty cell keeps the multiset of all cells |
| Moves.StepConserves | run.py:28-49 | every legal move keeps the multiset of letters and empty cells over hallway and rooms |
| Moves.EntryRoomHasSpace | run.py:41-43 | when every letter occurs `depth` times, the room a hallway token may enter has an empty cell, so the scan at lines 42-43 stays in the room |
| Moves.StepKeepsStacked | run.py:41-47 | both moves keep every room's empty cells a prefix from the top |
| Moves.StepKeepsDoorsClear | run.py:61-70 | if no token stands in front of a door, none does after any legal move |
| Search.Walk | run.py:101-106 | a sequence of legal moves from a well-formed start ends in a well-formed configuration with the same room sizes and the same inventory |
| Search.WalkKeepsShape | run.py:41-70 | from a start that is stacked and has its door cells clear, every reachable configuration is too |
| Search.WalkKeepsBalance | run.py:28-49 | from a start where each letter occurs `depth` times, every reachable configuration is balanced in the same way |
| Search.Frontier.constructor | run.py:90-92 | the table holds the start at cost 0 and the queue holds only that entry |
| Search.Frontier.PushState | run.py:23-26 | records and enqueues (newCost, newState) exactly when newState is unknown or newCost is strictly below its table cost, otherwise changes nothing; no table cost ever rises; afterwards newState's table cost is at most newCost |
| Search.Frontier.PopMin | run.py:95 | removes one entry of least cost from the queue and returns it; the table is unchanged |
| Search.MinimumExists | run.py:95 | a non-empty queue has an entry of least cost |
| Search.FrontierBound | run.py:94-100 | Dijkstra's invariant: every walk from the start ends in an expanded configuration recorded no dearer than the walk, or the queue holds an entry no dearer than the walk |
| Search.ClosedStep | run.py:101-106 | a move out of an expanded configuration, taken at or above its table cost, reaches a configuration the table records no dearer |
| Search.SkipStale | run.py:96-97 | skipping an entry dearer than its table cost keeps the search invariant |
| Search.BeginExpansion | run.py:95-98 | popping a configuration's current entry opens it for expansion with the search invariant intact |
| Search.EndExpansion | run.py:101-106 | once every legal move out of the popped configuration has been relaxed, it joins the expanded set and the search invariant holds again |
| Search.ClosedExpandedMonotone | run.py:23-26 | lowering table costs of other configurations never undoes a relaxation already done |
| Search.WitnessedAfterRelax | run.py:101-106 | a new table cost is the cost of the witnessing move sequence extended by the relaxed move |
| Search.QueueAfterRelax | run.py:23-26 | after an improving push every queue entry is still reached by the table, and every open configuration still has its current entry queued |
| Search.RelaxKeepsSearching | run.py:101-106 | an improving push of a legal successor keeps the whole search invariant |
| Search.RelaxStep | run.py:101-106 | one push, improving or not, keeps the invariant and adds the move to the relaxed ones |
| Search.ExpansionComplete | run.py:101-106 | relaxing every move the two generators emit relaxes every legal move out of the configuration |
| Search.RelaxExits | run.py:101-103 | the first loop relaxes every legal room-to-hallway move of the popped configuration and keeps the search invariant |
| Search.RelaxEntries | run.py:104-106 | the second loop relaxes every legal hallway-to-room move of the popped configuration and keeps the search invariant |
| Search.ExpandState | run.py:101-106 | both loops together expand the popped configuration: afterwards it is in the expanded set and every legal move out of it reaches a configuration the table records at no more than the popped cost plus the move's energy; no table cost rises over the whole expansion; the search invariant holds again |
| Search.Solve | run.py:88-107 | an answer is never above the cost of any solution. It is the cost of some solution, or it is 0 and no solution exists |

## Left out

- `read_input` and `main` (run.py:9-18, 109-114) read stdin and parse text columns. `Solve` takes the initial configuration and `depth` as parameters instead. It requires 11 hallway cells, four rooms of `depth` cells, only letters and `.`, and each letter occurring `depth` times. The source needs the count condition too: without it the scan at run.py:42-43 finds no empty cell in a full room and ends in an `IndexError`.
- Heap order: `heapq` breaks ties between equal costs by comparing configurations. `PopMin` may return any entry of least cost, so the proved results hold for every tie order.
- `float('inf')` at run.py:24 is modelled as a key missing from the table.
- Search.Solve: the `while queue` loop is bounded by a `fuel` parameter. Running out yields `OutOfFuel`, an outcome the source does not have. Termination would need the finiteness of the configuration space, which the model does not prove.
- Search.Solve: does not state which of several optimal goal entries is returned, nor that the returned cost equals the popped entry's table cost. It states optimality and a witness instead, which implies the cost.
- Moves.PossibleMovesFromRooms: states the set of emitted moves, not their order in the list.
- Moves.PossibleMovesToRooms: states the set of emitted moves, not their order in the list. It requires every hallway cell to be a letter or `.`, where the source's dictionary lookup would fail.
- Moves.MoveFromRoomToHall: the contract bounds the new cost from below, with one step's energy. The exact formula `(|pos - door| + depth_in_room + 1) * energy` is the function's body.
- Moves.HallToRoom: the contract bounds the new cost from below in the same way, and the exact formula is its body.
- Python slicing with an out-of-range index is not modelled. The string rebuilds at run.py:29 and 47 are modelled as single-cell updates of an in-range position.
- A hallway token standing on its own door cell gets an empty path check at run.py:82. Moves.StepKeepsDoorsClear shows that no such token appears from a start with the door cells clear, so the model does not single it out.

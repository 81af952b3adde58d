/** The uniform-cost search: a best-cost table `seen`, a priority queue of
    (cost, configuration) entries, and the pop-min loop of `solve`. */
module Search {
  import opened Burrow
  import opened Moves

  /** The configuration and accumulated cost reached from `start` by a sequence
      of moves, or None when some move in it is not legal where it is taken. */
  function Walk(start: State, moves: seq<Move>): (r: Option<Entry>)
    requires WellFormed(start)
    ensures r.Some? ==> WellFormed(r.value.state) && SameRoomSizes(r.value.state, start)
    ensures r.Some? ==> Inventory(r.value.state) == Inventory(start)
    decreases |moves|
  {
    if moves == [] then Some(Entry(0, start))
    else
      var prev := Walk(start, moves[..|moves| - 1]);
      var mv := moves[|moves| - 1];
      if prev.Some? && Legal(prev.value.state, mv) then
        StepConserves(prev.value.state, mv, prev.value.cost);
        Some(Step(prev.value.state, mv, prev.value.cost))
      else None
  }

  /** `moves` lead from `start` to a goal configuration at total energy `c`. */
  predicate Solution(start: State, depth: nat, moves: seq<Move>, c: nat) {
    && WellFormed(start)
    && Walk(start, moves).Some?
    && Walk(start, moves).value.cost == c
    && CheckGoal(Walk(start, moves).value.state.rooms, depth)
  }

  /** The initial configuration handed to the search: a well-formed burrow
      whose rooms have `depth` cells and where each letter occurs `depth` times. */
  predicate Puzzle(start: State, depth: nat) {
    WellFormed(start) && Balanced(start, depth)
  }

  /** Every configuration reachable from a puzzle keeps its rooms stacked from
      the bottom and its door cells empty, when the start does. */
  lemma {:induction false} WalkKeepsShape(start: State, moves: seq<Move>)
    requires WellFormed(start) && AllStacked(start) && DoorsClear(start)
    requires Walk(start, moves).Some?
    ensures AllStacked(Walk(start, moves).value.state) && DoorsClear(Walk(start, moves).value.state)
    decreases |moves|
  {
    if moves != [] {
      var prefix := moves[..|moves| - 1];
      var mv := moves[|moves| - 1];
      WalkKeepsShape(start, prefix);
      var prev := Walk(start, prefix).value;
      StepKeepsStacked(prev.state, mv, prev.cost);
      StepKeepsDoorsClear(prev.state, mv, prev.cost);
    }
  }

  /** Every configuration reachable from a puzzle is balanced too. */
  lemma WalkKeepsBalance(start: State, depth: nat, moves: seq<Move>)
    requires Puzzle(start, depth) && Walk(start, moves).Some?
    ensures Balanced(Walk(start, moves).value.state, depth)
  {
  }

  /** The best-cost table and the priority queue of `solve`. */
  class Frontier {
    var seen: map<State, nat>
    var queue: multiset<Entry>

    constructor (start: State)
      ensures seen == map[start := 0] && queue == multiset{Entry(0, start)}
    {
      seen := map[start := 0];
      queue := multiset{Entry(0, start)};
    }

    /** Record newCost for newState and enqueue it, but only when it beats the
        best cost known for newState (an unknown state has no bound). */
    method PushState(newState: State, newCost: nat)
      modifies this
      ensures var improves := newState !in old(seen) || newCost < old(seen)[newState];
              if improves then seen == old(seen)[newState := newCost] && queue == old(queue) + multiset{Entry(newCost, newState)}
              else seen == old(seen) && queue == old(queue)
      ensures forall k :: k in old(seen) ==> k in seen && seen[k] <= old(seen)[k]
      ensures newState in seen && seen[newState] <= newCost
    {
      if newState !in seen || newCost < seen[newState] {
        seen := seen[newState := newCost];
        queue := queue + multiset{Entry(newCost, newState)};
      }
    }

    /** Remove and return an entry of least cost; ties are broken arbitrarily. */
    method PopMin() returns (e: Entry)
      requires |queue| > 0
      modifies this
      ensures e in old(queue) && forall x :: x in old(queue) ==> e.cost <= x.cost
      ensures queue == old(queue) - multiset{e} && seen == old(seen)
    {
      MinimumExists(queue);
      e :| e in queue && forall x :: x in queue ==> e.cost <= x.cost;
      queue := queue - multiset{e};
    }
  }

  /** A non-empty queue has an entry of least cost. */
  lemma {:induction false} MinimumExists(q: multiset<Entry>)
    requires |q| > 0
    ensures exists e :: e in q && forall x :: x in q ==> e.cost <= x.cost
    decreases |q|
  {
    var y :| y in q;
    var rest := q - multiset{y};
    assert q == rest + multiset{y};
    if |rest| == 0 {
      assert q == multiset{y};
      assert forall x :: x in q ==> y.cost <= x.cost;
    } else {
      MinimumExists(rest);
      var e :| e in rest && forall x :: x in rest ==> e.cost <= x.cost;
      assert forall x :: x in q ==> x in rest || x == y;
      if y.cost < e.cost {
        assert forall x :: x in q ==> y.cost <= x.cost;
      } else {
        assert e in q && forall x :: x in q ==> e.cost <= x.cost;
      }
    }
  }

  /** The table already holds e's configuration at a cost no greater than e's. */
  ghost predicate Reached(seen: map<State, nat>, e: Entry) {
    e.state in seen && seen[e.state] <= e.cost
  }

  /** u has been expanded: every legal move out of it was relaxed. */
  ghost predicate Expanded(seen: map<State, nat>, u: State)
    requires u in seen
  {
    forall mv :: Legal(u, mv) ==> Reached(seen, Step(u, mv, seen[u]))
  }

  /** Every configuration in the table is reached from the start, by the
      moves `paths` records for it, at exactly its recorded cost. */
  ghost predicate Witnessed(start: State, seen: map<State, nat>, paths: map<State, seq<Move>>)
    requires WellFormed(start)
  {
    && (forall v :: v in seen ==> v in paths)
    && (forall v {:trigger Walk(start, paths[v])} :: v in seen ==> Walk(start, paths[v]) == Some(Entry(seen[v], v)))
  }

  /** The expanded configurations: in the table, not goals, every move out of them relaxed. */
  ghost predicate ClosedExpanded(depth: nat, seen: map<State, nat>, closed: set<State>) {
    forall u :: u in closed ==> u in seen && !CheckGoal(u.rooms, depth) && Expanded(seen, u)
  }

  /** Every configuration of the table that is neither expanded nor busy has
      its current entry in the queue. */
  ghost predicate Queued(seen: map<State, nat>, queue: multiset<Entry>, closed: set<State>, busy: set<State>) {
    forall v :: v in seen && v !in closed && v !in busy ==> Entry(seen[v], v) in queue
  }

  /** The search invariant, with the configurations in `busy` being expanded. */
  ghost predicate Searching(start: State, depth: nat, seen: map<State, nat>, queue: multiset<Entry>,
                            closed: set<State>, paths: map<State, seq<Move>>, busy: set<State>)
  {
    && Puzzle(start, depth)
    && start in seen && seen[start] == 0
    && Witnessed(start, seen, paths)
    && (forall e :: e in queue ==> Reached(seen, e))
    && ClosedExpanded(depth, seen, closed)
    && Queued(seen, queue, closed, busy)
  }

  /** Extending a walk by one legal move takes that move from where the walk ended. */
  lemma WalkExtend(start: State, moves: seq<Move>, mv: Move)
    requires WellFormed(start) && Walk(start, moves).Some?
    requires Legal(Walk(start, moves).value.state, mv)
    ensures Walk(start, moves + [mv])
            == Some(Step(Walk(start, moves).value.state, mv, Walk(start, moves).value.cost))
  {
    assert (moves + [mv])[..|moves + [mv]| - 1] == moves;
  }

  /** A legal move out of an expanded configuration u, taken at any cost no
      below u's table cost, reaches a configuration the table holds no dearer. */
  lemma ClosedStep(depth: nat, seen: map<State, nat>, closed: set<State>, u: State, mv: Move, c: nat)
    requires ClosedExpanded(depth, seen, closed) && u in closed && seen[u] <= c && Legal(u, mv)
    ensures Reached(seen, Step(u, mv, c))
  {
    assert Expanded(seen, u);
    StepShift(u, mv, seen[u], c);
  }

  /** The heart of Dijkstra's argument: any walk from the start ends either in
      an expanded configuration recorded at no more than the walk's cost, or
      the queue holds an entry no dearer than the walk. */
  lemma {:induction false} FrontierBound(start: State, depth: nat, seen: map<State, nat>, queue: multiset<Entry>,
                                         closed: set<State>, moves: seq<Move>)
    requires WellFormed(start) && start in seen && seen[start] == 0
    requires ClosedExpanded(depth, seen, closed) && Queued(seen, queue, closed, {})
    requires Walk(start, moves).Some?
    ensures var e := Walk(start, moves).value;
            (e.state in closed && seen[e.state] <= e.cost) || exists q :: q in queue && q.cost <= e.cost
    decreases |moves|
  {
    var e := Walk(start, moves).value;
    if moves == [] {
      if start !in closed {
        assert Entry(seen[start], start) in queue;
      }
    } else {
      var prefix := moves[..|moves| - 1];
      var mv := moves[|moves| - 1];
      FrontierBound(start, depth, seen, queue, closed, prefix);
      var p := Walk(start, prefix).value;
      assert Legal(p.state, mv) && e == Step(p.state, mv, p.cost);
      if p.state in closed && seen[p.state] <= p.cost {
        ClosedStep(depth, seen, closed, p.state, mv, p.cost);
        if e.state !in closed {
          assert Entry(seen[e.state], e.state) in queue;
        }
      } else {
        var q :| q in queue && q.cost <= p.cost;
        assert q.cost <= e.cost;
      }
    }
  }

  /** Skipping a stale entry (one dearer than its configuration's table cost)
      keeps the search invariant. */
  lemma SkipStale(start: State, depth: nat, seen: map<State, nat>, queue: multiset<Entry>,
                  closed: set<State>, paths: map<State, seq<Move>>, e: Entry)
    requires Searching(start, depth, seen, queue, closed, paths, {})
    requires e in queue && e.cost > seen[e.state]
    ensures Searching(start, depth, seen, queue - multiset{e}, closed, paths, {})
  {
    forall v | v in seen && v !in closed ensures Entry(seen[v], v) in queue - multiset{e} {
      assert Entry(seen[v], v) in queue && Entry(seen[v], v) != e;
    }
  }

  /** Popping the current entry of u opens u for expansion. */
  lemma BeginExpansion(start: State, depth: nat, seen: map<State, nat>, queue: multiset<Entry>,
                       closed: set<State>, paths: map<State, seq<Move>>, e: Entry)
    requires Searching(start, depth, seen, queue, closed, paths, {})
    requires e in queue
    ensures Searching(start, depth, seen, queue - multiset{e}, closed - {e.state}, paths, {e.state})
  {
    forall v | v in seen && v !in closed - {e.state} && v != e.state
      ensures Entry(seen[v], v) in queue - multiset{e}
    {
      assert Entry(seen[v], v) in queue && Entry(seen[v], v) != e;
    }
  }

  /** Once every move out of u has been relaxed, u joins the expanded set. */
  lemma EndExpansion(start: State, depth: nat, seen: map<State, nat>, queue: multiset<Entry>,
                     closed: set<State>, paths: map<State, seq<Move>>, u: State)
    requires Searching(start, depth, seen, queue, closed, paths, {u})
    requires u in seen && !CheckGoal(u.rooms, depth) && Expanded(seen, u)
    ensures Searching(start, depth, seen, queue, closed + {u}, paths, {})
  {
  }

  /** Lowering table costs never undoes a relaxation already done, as long as
      the expanded configurations keep their own costs. */
  lemma ClosedExpandedMonotone(depth: nat, seen: map<State, nat>, seen': map<State, nat>, closed: set<State>)
    requires ClosedExpanded(depth, seen, closed)
    requires forall k :: k in seen ==> k in seen' && seen'[k] <= seen[k]
    requires forall u :: u in closed ==> u in seen' && seen'[u] == seen[u]
    ensures ClosedExpanded(depth, seen', closed)
  {
    forall u | u in closed ensures Expanded(seen', u) {
      assert Expanded(seen, u);
      forall mv | Legal(u, mv) ensures Reached(seen', Step(u, mv, seen'[u])) {
        assert Reached(seen, Step(u, mv, seen[u]));
      }
    }
  }

  /** Recording the successor reached through u keeps every table entry witnessed. */
  lemma WitnessedAfterRelax(start: State, seen: map<State, nat>, paths: map<State, seq<Move>>,
                            u: State, mv: Move, next: Entry)
    requires WellFormed(start) && Witnessed(start, seen, paths)
    requires u in seen && Legal(u, mv) && next == Step(u, mv, seen[u])
    ensures Witnessed(start, seen[next.state := next.cost], paths[next.state := paths[u] + [mv]])
  {
    WalkExtend(start, paths[u], mv);
  }

  /** Recording an improved cost for next's configuration keeps the queue sound
      and the unexpanded configurations queued. */
  lemma QueueAfterRelax(seen: map<State, nat>, queue: multiset<Entry>, closed: set<State>, u: State, next: Entry)
    requires forall e :: e in queue ==> Reached(seen, e)
    requires Queued(seen, queue, closed, {u})
    requires next.state !in seen || next.cost < seen[next.state]
    ensures forall e :: e in queue + multiset{next} ==> Reached(seen[next.state := next.cost], e)
    ensures Queued(seen[next.state := next.cost], queue + multiset{next}, closed - {next.state}, {u})
  {
  }

  /** Relaxing a legal move out of the busy configuration u that improves the
      table, as PushState does it, keeps the search invariant once `paths`
      and `closed` follow. */
  lemma RelaxKeepsSearching(start: State, depth: nat, seen: map<State, nat>, queue: multiset<Entry>,
                            closed: set<State>, paths: map<State, seq<Move>>, u: State, mv: Move, next: Entry)
    requires Searching(start, depth, seen, queue, closed, paths, {u})
    requires u in seen && u !in closed && Legal(u, mv) && next == Step(u, mv, seen[u])
    requires next.state !in seen || next.cost < seen[next.state]
    ensures Searching(start, depth, seen[next.state := next.cost], queue + multiset{next},
                      closed - {next.state}, paths[next.state := paths[u] + [mv]], {u})
  {
    var seen' := seen[next.state := next.cost];
    WitnessedAfterRelax(start, seen, paths, u, mv, next);
    ClosedExpandedMonotone(depth, seen, seen', closed - {next.state});
    QueueAfterRelax(seen, queue, closed, u, next);
  }

  /** The search invariant while u, popped at `cost`, is being expanded. */
  ghost predicate Expanding(start: State, depth: nat, seen: map<State, nat>, queue: multiset<Entry>,
                            closed: set<State>, paths: map<State, seq<Move>>, u: State, cost: nat)
  {
    Searching(start, depth, seen, queue, closed, paths, {u}) && u in seen && seen[u] == cost && u !in closed
  }

  /** mv is a legal move out of u whose successor the table already records
      at no more than `cost` plus the move's energy. */
  ghost predicate Relaxed(seen: map<State, nat>, u: State, cost: nat, mv: Move) {
    Legal(u, mv) && Reached(seen, Step(u, mv, cost))
  }

  /** One call of PushState on the successor of u by mv: the invariant is kept
      once `paths` and `closed` follow, and mv joins the relaxed moves `done`. */
  lemma RelaxStep(start: State, depth: nat, seen: map<State, nat>, queue: multiset<Entry>,
                  closed: set<State>, paths: map<State, seq<Move>>, u: State, cost: nat,
                  done: set<Move>, mv: Move, seen': map<State, nat>, queue': multiset<Entry>)
    returns (closed': set<State>, paths': map<State, seq<Move>>)
    requires Expanding(start, depth, seen, queue, closed, paths, u, cost) && Legal(u, mv)
    requires forall mv' :: mv' in done ==> Relaxed(seen, u, cost, mv')
    requires var next := Step(u, mv, cost);
             if next.state !in seen || next.cost < seen[next.state]
             then seen' == seen[next.state := next.cost] && queue' == queue + multiset{Entry(next.cost, next.state)}
             else seen' == seen && queue' == queue
    ensures Expanding(start, depth, seen', queue', closed', paths', u, cost)
    ensures forall mv' :: mv' in done + {mv} ==> Relaxed(seen', u, cost, mv')
  {
    var next := Step(u, mv, cost);
    if next.state !in seen || next.cost < seen[next.state] {
      RelaxKeepsSearching(start, depth, seen, queue, closed, paths, u, mv, next);
      closed', paths' := closed - {next.state}, paths[next.state := paths[u] + [mv]];
      forall mv' | mv' in done + {mv} ensures Relaxed(seen', u, cost, mv') {
        if mv' != mv {
          assert Relaxed(seen, u, cost, mv');
        }
      }
    } else {
      closed', paths' := closed, paths;
    }
  }

  /** Once every move the generators listed is relaxed, u is expanded. */
  lemma ExpansionComplete(seen: map<State, nat>, u: State, cost: nat, done: set<Move>)
    requires u in seen && seen[u] == cost
    requires forall m :: IsRoomMove(u, m) ==> Out(m) in done
    requires forall m :: IsHallMove(u, m) ==> In(m) in done
    requires forall mv :: mv in done ==> Relaxed(seen, u, cost, mv)
    ensures Expanded(seen, u)
  {
    forall mv | Legal(u, mv) ensures Reached(seen, Step(u, mv, seen[u])) {
      assert mv in done;
    }
  }

  /** Bookkeeping of the expansion loops: after relaxing the i-th exit the
      first i+1 exits are done. These two lemmas state nothing beyond set
      union; they exist only so that the loops of RelaxExits and RelaxEntries
      re-establish their coverage invariants within the solver's budget. */
  lemma ExitsCovered(exits: seq<RoomMove>, i: nat, done: set<Move>)
    requires i < |exits| && forall k :: 0 <= k < i ==> Out(exits[k]) in done
    ensures forall k :: 0 <= k < i + 1 ==> Out(exits[k]) in done + {Out(exits[i])}
  {
  }

  lemma EntriesCovered(entries: seq<HallMove>, j: nat, done: set<Move>)
    requires j < |entries| && forall k :: 0 <= k < j ==> In(entries[k]) in done
    ensures forall k :: 0 <= k < j + 1 ==> In(entries[k]) in done + {In(entries[j])}
  {
  }

  /** The first `for` loop of `solve`'s expansion: push the successor of
      every room-to-hallway move the generator lists for u, popped at `cost`. */
  method RelaxExits(f: Frontier, ghost start: State, depth: nat, ghost closed: set<State>,
                    ghost paths: map<State, seq<Move>>, state: State, cost: nat)
    returns (ghost closed': set<State>, ghost paths': map<State, seq<Move>>, ghost done: set<Move>)
    requires Expanding(start, depth, f.seen, f.queue, closed, paths, state, cost) && WellFormed(state)
    modifies f
    ensures Expanding(start, depth, f.seen, f.queue, closed', paths', state, cost)
    ensures forall mv :: mv in done ==> Relaxed(f.seen, state, cost, mv)
    ensures forall m :: IsRoomMove(state, m) ==> Out(m) in done
    ensures forall k :: k in old(f.seen) ==> k in f.seen && f.seen[k] <= old(f.seen)[k]
  {
    closed', paths', done := closed, paths, {};
    var exits := PossibleMovesFromRooms(state);
    for i := 0 to |exits|
      invariant Expanding(start, depth, f.seen, f.queue, closed', paths', state, cost)
      invariant forall mv :: mv in done ==> Relaxed(f.seen, state, cost, mv)
      invariant forall k :: 0 <= k < i ==> Out(exits[k]) in done
      invariant forall k :: k in old(f.seen) ==> k in f.seen && f.seen[k] <= old(f.seen)[k]
    {
      var mv := Out(exits[i]);
      ExitsCovered(exits, i, done);
      assert exits[i] in exits && Legal(state, mv);
      var next := MoveFromRoomToHall(state, exits[i], cost);
      ghost var before, queued := f.seen, f.queue;
      f.PushState(next.state, next.cost);
      closed', paths' := RelaxStep(start, depth, before, queued, closed', paths', state, cost, done, mv,
                                 f.seen, f.queue);
      done := done + {mv};
    }
    forall m | IsRoomMove(state, m) ensures Out(m) in done {
      var k :| 0 <= k < |exits| && exits[k] == m;
    }
  }

  /** The second `for` loop of `solve`'s expansion: push the successor of
      every hallway-to-room move the generator lists for u. */
  method RelaxEntries(f: Frontier, ghost start: State, depth: nat, ghost closed: set<State>,
                      ghost paths: map<State, seq<Move>>, state: State, cost: nat, ghost done: set<Move>)
    returns (ghost closed': set<State>, ghost paths': map<State, seq<Move>>, ghost done': set<Move>)
    requires Expanding(start, depth, f.seen, f.queue, closed, paths, state, cost)
    requires WellFormed(state) && Balanced(state, depth)
    requires forall mv :: mv in done ==> Relaxed(f.seen, state, cost, mv)
    modifies f
    ensures Expanding(start, depth, f.seen, f.queue, closed', paths', state, cost)
    ensures forall mv :: mv in done' ==> Relaxed(f.seen, state, cost, mv)
    ensures done <= done' && forall m :: IsHallMove(state, m) ==> In(m) in done'
    ensures forall k :: k in old(f.seen) ==> k in f.seen && f.seen[k] <= old(f.seen)[k]
  {
    closed', paths', done' := closed, paths, done;
    var entries := PossibleMovesToRooms(state);
    for j := 0 to |entries|
      invariant Expanding(start, depth, f.seen, f.queue, closed', paths', state, cost)
      invariant forall mv :: mv in done' ==> Relaxed(f.seen, state, cost, mv)
      invariant done <= done' && forall k :: 0 <= k < j ==> In(entries[k]) in done'
      invariant forall k :: k in old(f.seen) ==> k in f.seen && f.seen[k] <= old(f.seen)[k]
    {
      EntryRoomHasSpace(state, depth, entries[j]);
      var mv := In(entries[j]);
      EntriesCovered(entries, j, done');
      assert entries[j] in entries && Legal(state, mv);
      var next := MoveFromHallToRoom(state, entries[j], cost);
      ghost var before, queued := f.seen, f.queue;
      f.PushState(next.state, next.cost);
      closed', paths' := RelaxStep(start, depth, before, queued, closed', paths', state, cost, done', mv,
                                 f.seen, f.queue);
      done' := done' + {mv};
    }
    forall m | IsHallMove(state, m) ensures In(m) in done' {
      var k :| 0 <= k < |entries| && entries[k] == m;
    }
  }

  /** The expansion of the popped configuration u: both loops, after which u
      joins the closed set and the search invariant holds again. */
  method ExpandState(f: Frontier, ghost start: State, depth: nat, ghost closed: set<State>,
                     ghost paths: map<State, seq<Move>>, state: State, cost: nat)
    returns (ghost closed': set<State>, ghost paths': map<State, seq<Move>>)
    requires Expanding(start, depth, f.seen, f.queue, closed, paths, state, cost)
    requires WellFormed(state) && Balanced(state, depth) && !CheckGoal(state.rooms, depth)
    modifies f
    ensures Searching(start, depth, f.seen, f.queue, closed', paths', {})
    ensures state in closed' && state in f.seen && Expanded(f.seen, state)
    ensures forall k :: k in old(f.seen) ==> k in f.seen && f.seen[k] <= old(f.seen)[k]
  {
    ghost var done;
    closed', paths', done := RelaxExits(f, start, depth, closed, paths, state, cost);
    closed', paths', done := RelaxEntries(f, start, depth, closed', paths', state, cost, done);
    ExpansionComplete(f.seen, state, cost, done);
    EndExpansion(start, depth, f.seen, f.queue, closed', paths', state);
    closed' := closed' + {state};
  }

  /** The minimum energy needed to sort the burrow, as `solve` computes it:
      pop a cheapest entry, skip it when stale, return its cost when it is a
      goal, otherwise relax every move out of it. An exhausted queue yields 0.
      The loop is bounded by `fuel`; running out of it yields OutOfFuel. */
  method Solve(start: State, depth: nat, fuel: nat) returns (outcome: Outcome)
    requires Puzzle(start, depth)
    ensures outcome.Answer? ==> forall ms, c :: Solution(start, depth, ms, c) ==> outcome.energy <= c
    ensures outcome.Answer? ==>
              (exists ms :: Solution(start, depth, ms, outcome.energy))
              || (outcome.energy == 0 && forall ms, c :: !Solution(start, depth, ms, c))
  {
    var f := new Frontier(start);
    ghost var paths: map<State, seq<Move>> := map[start := []];
    ghost var closed: set<State> := {};
    var fuelLeft := fuel;
    while |f.queue| != 0
      invariant Searching(start, depth, f.seen, f.queue, closed, paths, {})
      decreases fuelLeft
    {
      if fuelLeft == 0 {
        return OutOfFuel;
      }
      fuelLeft := fuelLeft - 1;
      ghost var queue0 := f.queue;
      var popped := f.PopMin();
      var cost, state := popped.cost, popped.state;
      if cost > f.seen[state] {
        SkipStale(start, depth, f.seen, queue0, closed, paths, popped);
        continue;
      }
      if CheckGoal(state.rooms, depth) {
        forall ms, c | Solution(start, depth, ms, c) ensures cost <= c {
          FrontierBound(start, depth, f.seen, queue0, closed, ms);
        }
        assert Solution(start, depth, paths[state], cost);
        return Answer(cost);
      }
      BeginExpansion(start, depth, f.seen, queue0, closed, paths, popped);
      closed := closed - {state};
      WalkKeepsBalance(start, depth, paths[state]);

      assert WellFormed(state) && Balanced(state, depth);
      closed, paths := ExpandState(f, start, depth, closed, paths, state, cost);
    }
    forall ms, c | Solution(start, depth, ms, c) ensures false {
      FrontierBound(start, depth, f.seen, f.queue, closed, ms);
    }
    return Answer(0);
  }

  datatype Outcome = Answer(energy: nat) | OutOfFuel
}

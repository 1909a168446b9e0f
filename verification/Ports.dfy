/** The test fixture's port allocator: a cursor that goes round a range of ports, and the set
    of ports in use. Port numbers are 16-bit unsigned integers. */
module Ports {
  import opened Wrappers

  const START := 1883
  const END := 2883
  const MAX_U16 := 0xFFFF

  /** The number of candidates that one call looks at. */
  const TRIES := END - START + 2

  type Port = p: int | 0 <= p <= MAX_U16

  function Candidate(cursor: Port, i: nat): (port: Port)
    ensures START <= port < START + START
  {
    var port := (cursor + 1 + i) % END;
    if port < START then port + START else port
  }

  /** The first candidate from number `i` on that is not in use. */
  function FirstFree(cursor: Port, inUse: set<Port>, i: nat): Option<Port>
    decreases TRIES - i
  {
    if i >= TRIES then None
    else if Candidate(cursor, i) !in inUse then Some(Candidate(cursor, i))
    else FirstFree(cursor, inUse, i + 1)
  }

  datatype State = State(cursor: Port, inUse: set<Port>)

  const FRESH := State(START - 1, {})

  function Get(s: State): (State, Option<Port>) {
    match FirstFree(s.cursor, s.inUse, 0)
    case None => (s, None)
    case Some(port) => (State(port, s.inUse + {port}), Some(port))
  }

  function Release(s: State, port: Port): State {
    s.(inUse := s.inUse - {port})
  }

  // ---------- the allocator itself ----------

  /** The global cursor and set. `Valid` needs no bound on the number of ports out. */
  class Allocator {
    var cursor: Port
    var inUse: set<Port>

    ghost predicate Valid()
      reads this
    {
      START - 1 <= cursor < START + START
    }

    ghost function View(): State
      reads this
    {
      State(cursor, inUse)
    }

    constructor ()
      ensures Valid() && View() == FRESH
    {
      cursor, inUse := START - 1, {};
    }

    /** No sum leaves the 16-bit range, however many ports are out. */
    method GetPort() returns (r: Option<Port>)
      requires Valid()
      modifies this
      ensures Valid() && (View(), r) == Get(old(View()))
    {
      for i := 0 to TRIES
        invariant View() == old(View()) && FirstFree(cursor, inUse, 0) == FirstFree(cursor, inUse, i)
      {
        assert cursor + 1 + i <= MAX_U16;
        var port := (cursor + 1 + i) % END;
        if port < START {
          port := port + START;
        }
        if port !in inUse {
          inUse := inUse + {port};
          cursor := port;
          return Some(port);
        }
      }
      r := None;
    }

    method DropPort(port: Port)
      modifies this
      ensures View() == Release(old(View()), port) && (old(Valid()) ==> Valid())
    {
      inUse := inUse - {port};
    }
  }

  // ---------- the candidates ----------

  /** The ports of the normal cycle: the end of the range is not one of them. */
  predicate InCycle(port: int) {
    START <= port < END
  }

  predicate InStep(cursor: int) {
    START - 1 <= cursor < END
  }

  /** When `port` comes up, counted from the cursor. */
  function Turn(cursor: Port, port: Port): int {
    if port > cursor then port - cursor - 1 else port - cursor - 1 + (END - START)
  }

  /** The first thousand candidates are a permutation of the cycle: each is in it, each of
      its ports has its one turn. The last two tries go past its end. */
  lemma CandidatesPermuteCycle(cursor: Port, i: nat, port: Port)
    requires InStep(cursor)
    ensures i < END - START ==> InCycle(Candidate(cursor, i)) && Turn(cursor, Candidate(cursor, i)) == i
    ensures InCycle(port) ==> 0 <= Turn(cursor, port) < END - START && Candidate(cursor, Turn(cursor, port)) == port
    ensures END - START <= i < TRIES ==> Candidate(cursor, i) == cursor + 1 + i - (END - START)
  {
    var sum := cursor + 1 + i;
    if sum < END {
      assert sum % END == sum;
    } else if i < TRIES {
      assert sum % END == sum - END;
    }
    if InCycle(port) {
      var turn := cursor + 1 + Turn(cursor, port);
      if turn < END {
        assert turn % END == turn;
      } else {
        assert turn % END == turn - END;
      }
    }
  }

  lemma {:induction false} FirstFreeIsFirst(cursor: Port, inUse: set<Port>, i: nat, k: nat)
    requires i <= k < TRIES && Candidate(cursor, k) !in inUse
    ensures exists j :: i <= j <= k && FirstFree(cursor, inUse, i) == Some(Candidate(cursor, j)) && Candidate(cursor, j) !in inUse
    decreases TRIES - i
  {
    if Candidate(cursor, i) in inUse {
      FirstFreeIsFirst(cursor, inUse, i + 1, k);
    }
  }

  lemma {:induction false} FirstFreeIsUnused(cursor: Port, inUse: set<Port>, i: nat)
    ensures FirstFree(cursor, inUse, i).Some? ==> FirstFree(cursor, inUse, i).value !in inUse
    decreases TRIES - i
  {
    if i < TRIES && Candidate(cursor, i) in inUse {
      FirstFreeIsUnused(cursor, inUse, i + 1);
    }
  }

  /** Exactly when some port of the cycle is unused does a call return one of them. */
  lemma GetSucceedsInCycle(s: State)
    requires InStep(s.cursor)
    ensures (exists port: Port :: InCycle(port) && port !in s.inUse) <==>
            (var r := Get(s).1; r.Some? && InCycle(r.value))
  {
    FirstFreeIsUnused(s.cursor, s.inUse, 0);
    if port: Port :| InCycle(port) && port !in s.inUse {
      CandidatesPermuteCycle(s.cursor, 0, port);
      FirstFreeIsFirst(s.cursor, s.inUse, 0, Turn(s.cursor, port));
      var j :| 0 <= j <= Turn(s.cursor, port) && Get(s).1 == Some(Candidate(s.cursor, j));
      CandidatesPermuteCycle(s.cursor, j, port);
    }
  }

  // ---------- the pigeonhole ----------

  /** The first `n` ports of the cycle. */
  function CyclePorts(n: nat): (r: set<Port>)
    requires n <= END - START
    ensures |r| == n && forall p :: p in r <==> START <= p < START + n
  {
    if n == 0 then {} else CyclePorts(n - 1) + {START + n - 1}
  }

  lemma {:induction false} SubsetSize(a: set<Port>, b: set<Port>)
    requires a <= b
    ensures |a| <= |b|
  {
    if a != {} {
      var p :| p in a;
      SubsetSize(a - {p}, b - {p});
    }
  }

  lemma SomePortUnused(inUse: set<Port>)
    requires |inUse| < END - START
    ensures exists port: Port :: InCycle(port) && port !in inUse
  {
    if forall port: Port :: InCycle(port) ==> port in inUse {
      SubsetSize(CyclePorts(END - START), inUse);
    }
  }

  // ---------- whole runs ----------

  /** A test takes a port, or lets go of the `i`th of those it still holds. */
  datatype Step = Take | LetGo(i: nat)

  /** The allocator and the port references that are still alive, oldest first. */
  datatype World = World(state: State, held: seq<Port>)

  function Apply(w: World, step: Step): World {
    match step
    case Take =>
      var (state, r) := Get(w.state);
      World(state, if r.Some? then w.held + [r.value] else w.held)
    case LetGo(i) =>
      if i < |w.held| then World(Release(w.state, w.held[i]), w.held[..i] + w.held[i + 1..]) else w
  }

  function After(steps: seq<Step>): World {
    if steps == [] then World(FRESH, []) else Apply(After(steps[..|steps| - 1]), steps[|steps| - 1])
  }

  ghost predicate Exact(w: World) {
    && (forall i, j :: 0 <= i < j < |w.held| ==> w.held[i] != w.held[j])
    && (forall p :: p in w.state.inUse <==> p in w.held)
  }

  lemma LetGoKeepsExact(w: World, i: nat)
    requires Exact(w) && i < |w.held|
    ensures Exact(Apply(w, LetGo(i)))
  {
    var held := w.held[..i] + w.held[i + 1..];
    forall p | p in w.held && p != w.held[i] ensures p in held {
      var k :| 0 <= k < |w.held| && w.held[k] == p;
      assert p == if k < i then held[k] else held[k - 1];
    }
  }

  lemma StepKeepsExact(w: World, step: Step)
    requires Exact(w)
    ensures Exact(Apply(w, step))
  {
    match step {
      case Take => FirstFreeIsUnused(w.state.cursor, w.state.inUse, 0);
      case LetGo(i) =>
        if i < |w.held| {
          LetGoKeepsExact(w, i);
        }
    }
  }

  /** In every run two live references never share a port, and the set is exactly the ports
      they hold. */
  lemma {:induction false} LivePortsAreDistinct(steps: seq<Step>)
    ensures Exact(After(steps))
  {
    if steps != [] {
      LivePortsAreDistinct(steps[..|steps| - 1]);
      StepKeepsExact(After(steps[..|steps| - 1]), steps[|steps| - 1]);
    }
  }

  /** At most 999 ports are out whenever one is taken. */
  predicate Modest(steps: seq<Step>) {
    if steps == [] then true
    else
      var before := steps[..|steps| - 1];
      Modest(before) && (steps[|steps| - 1] == Take ==> |After(before).held| < END - START)
  }

  lemma {:induction false} SizeOfHeld(held: seq<Port>, inUse: set<Port>)
    requires forall p :: p in inUse <==> p in held
    ensures |inUse| <= |held|
  {
    if held != [] {
      var front, last := held[..|held| - 1], held[|held| - 1];
      if last in front {
        SizeOfHeld(front, inUse);
      } else {
        SizeOfHeld(front, inUse - {last});
      }
    }
  }

  /** With room left, taking a port succeeds with an unheld port of the cycle. */
  lemma TakeSucceeds(w: World)
    requires Exact(w) && InStep(w.state.cursor) && |w.held| < END - START
    ensures var r := Get(w.state).1; r.Some? && InCycle(r.value) && r.value !in w.held
    ensures InStep(Apply(w, Take).state.cursor)
  {
    SizeOfHeld(w.held, w.state.inUse);
    SomePortUnused(w.state.inUse);
    GetSucceedsInCycle(w.state);
    FirstFreeIsUnused(w.state.cursor, w.state.inUse, 0);
  }

  lemma {:induction false} CursorStaysInStep(steps: seq<Step>)
    requires Modest(steps)
    ensures InStep(After(steps).state.cursor)
  {
    if steps != [] {
      var before := steps[..|steps| - 1];
      CursorStaysInStep(before);
      LivePortsAreDistinct(before);
      if steps[|steps| - 1] == Take {
        TakeSucceeds(After(before));
      }
    }
  }

  /** The main result: in every run with at most 999 ports out at each call, every call
      succeeds with a port of the cycle that nobody holds. */
  lemma ModestRunsSucceed(steps: seq<Step>)
    requires Modest(steps) && |After(steps).held| < END - START
    ensures var r := Get(After(steps).state).1; r.Some? && InCycle(r.value) && r.value !in After(steps).held
    ensures InStep(After(steps).state.cursor)
  {
    CursorStaysInStep(steps);
    LivePortsAreDistinct(steps);
    TakeSucceeds(After(steps));
  }

  // ---------- the bound is sharp ----------

  function Takes(n: nat): seq<Step> {
    seq(n, _ => Take)
  }

  lemma TakeNext(s: State)
    requires START - 1 <= s.cursor < END - 1 && s.cursor + 1 !in s.inUse
    ensures Get(s) == (State(s.cursor + 1, s.inUse + {s.cursor + 1}), Some(s.cursor + 1))
  {
    CandidatesPermuteCycle(s.cursor, 0, s.cursor + 1);
    assert FirstFree(s.cursor, s.inUse, 0) == Some(s.cursor + 1);
  }

  lemma {:induction false} TakesInARow(n: nat)
    requires n <= END - START
    ensures var w := After(Takes(n)); w.state.cursor == START - 1 + n && |w.held| == n
    ensures forall p :: p in After(Takes(n)).state.inUse <==> START <= p < START + n
  {
    if n > 0 {
      var before := Takes(n - 1);
      assert Takes(n)[..n - 1] == before && Takes(n)[n - 1] == Take;
      TakesInARow(n - 1);
      TakeNext(After(before).state);
    }
  }

  lemma {:induction false} NoneBefore(cursor: Port, inUse: set<Port>, i: nat, to: nat)
    requires i <= to <= TRIES && forall k :: i <= k < to ==> Candidate(cursor, k) in inUse
    ensures FirstFree(cursor, inUse, i) == FirstFree(cursor, inUse, to)
    decreases TRIES - i
  {
    if i < to {
      NoneBefore(cursor, inUse, i + 1, to);
    }
  }

  /** The thousand-and-first port in a row is the end of the range, outside the cycle. */
  lemma ThousandIsTheLimit()
    ensures Get(After(Takes(END - START)).state).1 == Some(END)
  {
    TakesInARow(END - START);
    var state := After(Takes(END - START)).state;
    forall k | 0 <= k < END - START ensures Candidate(state.cursor, k) in state.inUse {
      CandidatesPermuteCycle(state.cursor, k, START);
    }
    NoneBefore(state.cursor, state.inUse, 0, END - START);
    CandidatesPermuteCycle(state.cursor, END - START, START);
  }
}

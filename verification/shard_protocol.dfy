/** Many processes, one lease row per shard: sessions trail the leases, yet two live ones never meet. */
module ShardProtocol {
  import opened Model
  import opened Leases
  import Shards

  /** Where a process is between two of its calls. */
  datatype Pc =
    | Idle                                                       // between shards of a pass, or between passes
    | Calling(shard: nat)                                        // lease statement sent
    | Answered(shard: nat, granted: bool, expires: int)          // executed, the answer is under way
    | Opening(shard: nat)                                        // granted without a session
    | Releasing(shard: nat)                                      // denied, session just closed
    | Stopping                                                   // reconciler finished, Stop walks the sessions
    | StopReleasing(shard: nat)                                  // Stop has closed this one

  /** `sessions` holds the shards with an open session. `known` is history: per shard the expiry of the last
      grant whose answer the process saw, dropped when it gives the row back. */
  datatype Process = Process(ttl: int, pc: Pc, sessions: set<nat>, known: map<nat, int>)

  datatype State = State(rows: map<int, Lease>, clock: int, procs: map<string, Process>)

  datatype Action =
    | Tick(elapsed: nat)
    | Join(p: string, ttl: int)          // a process starts, with an owner id of its own
    | By(p: string, move: Move)

  datatype Move =
    | Call(shard: nat)
    | Execute
    | CallFails                          // never reached the table
    | AnswerLost                         // took effect, but the process sees an error
    | SeeAnswer
    | Open(succeeds: bool)
    | Release(executed: bool)            // of a closed session's row, in a pass or in Stop
    | Stop
    | StopClose(closing: nat)
    | Restart
    | Crash

  function With(s: State, p: string, q: Process): State {
    s.(procs := s.procs[p := q])
  }

  function SeeAnswerOf(q: Process): Process
    requires q.pc.Answered?
  {
    var shard := q.pc.shard;
    if q.pc.granted then
      q.(known := q.known[shard := q.pc.expires], pc := if shard in q.sessions then Idle else Opening(shard))
    else if shard in q.sessions then q.(sessions := q.sessions - {shard}, pc := Releasing(shard))
    else q.(pc := Idle)
  }

  /** One step; an action that is not possible changes nothing. */
  function Do(s: State, a: Action): State {
    match a
    case Tick(elapsed) => s.(clock := s.clock + elapsed)
    case Join(p, ttl) => if p in s.procs then s else With(s, p, Process(ttl, Idle, {}, map[]))
    case By(p, move) => if p in s.procs then MoveOf(s, p, s.procs[p], move) else s
  }

  function MoveOf(s: State, p: string, q: Process, move: Move): State {
    match move
    case Call(shard) => if q.pc.Idle? then With(s, p, q.(pc := Calling(shard))) else s
    case Execute =>
      if !q.pc.Calling? then s else
      var (rows, granted) := Acquire(s.rows, q.pc.shard, p, q.ttl, s.clock);
      With(s.(rows := rows), p, q.(pc := Answered(q.pc.shard, granted, s.clock + LeaseLength(q.ttl))))
    case CallFails => if q.pc.Calling? then With(s, p, q.(pc := Idle)) else s
    case AnswerLost => if q.pc.Answered? then With(s, p, q.(pc := Idle)) else s
    case SeeAnswer => if q.pc.Answered? then With(s, p, SeeAnswerOf(q)) else s
    case Open(succeeds) =>
      if !q.pc.Opening? then s
      else With(s, p, q.(pc := Idle, sessions := if succeeds then q.sessions + {q.pc.shard} else q.sessions))
    case Release(executed) =>
      if !(q.pc.Releasing? || q.pc.StopReleasing?) then s else
      var shard := q.pc.shard;
      var next := if q.pc.Releasing? then Idle else Stopping;
      With(if executed then s.(rows := Leases.Release(s.rows, shard, p)) else s, p,
           q.(pc := next, known := q.known - {shard}))
    case Stop => if q.pc.Idle? then With(s, p, q.(pc := Stopping)) else s
    case StopClose(shard) =>
      if q.pc.Stopping? && shard in q.sessions
      then With(s, p, q.(pc := StopReleasing(shard), sessions := q.sessions - {shard})) else s
    case Restart => if q.pc.Stopping? && q.sessions == {} then With(s, p, q.(pc := Idle)) else s
    case Crash => With(s, p, q.(pc := Stopping, sessions := {}))
  }

  const INITIAL := State(map[], 0, map[])

  function Run(actions: seq<Action>): State {
    if actions == [] then INITIAL else Do(Run(actions[..|actions| - 1]), actions[|actions| - 1])
  }

  // ---- The invariant ----

  /** Until `until` has passed, the shard's row is the process's and lasts at least that long. */
  ghost predicate Backed(s: State, p: string, shard: nat, until: int) {
    until >= s.clock ==> shard in s.rows && s.rows[shard].owner == p && s.rows[shard].expires >= until
  }

  ghost predicate ProcessInv(s: State, p: string, q: Process) {
    && (forall shard :: shard in q.known ==> Backed(s, p, shard, q.known[shard]))
    && (forall shard :: shard in q.sessions ==> shard in q.known)
    && (q.pc.Answered? && q.pc.granted ==> Backed(s, p, q.pc.shard, q.pc.expires))
    && (q.pc.Opening? ==> q.pc.shard in q.known)
    && (q.pc.Releasing? || q.pc.StopReleasing? ==> q.pc.shard !in q.sessions)
  }

  /** With a constant TTL no renewal can shorten a lease. */
  ghost predicate RowsWithinTtl(s: State) {
    forall shard :: shard in s.rows ==>
      s.rows[shard].owner in s.procs && s.rows[shard].expires <= s.clock + LeaseLength(s.procs[s.rows[shard].owner].ttl)
  }

  ghost predicate Inv(s: State) {
    RowsWithinTtl(s) && forall p :: p in s.procs ==> ProcessInv(s, p, s.procs[p])
  }

  lemma LocalStepKeepsInv(s: State, p: string, q: Process)
    requires Inv(s) && ProcessInv(s, p, q)
    requires p in s.procs ==> q.ttl == s.procs[p].ttl
    ensures Inv(With(s, p, q))
  {
    var t := With(s, p, q);
    forall r | r in t.procs ensures ProcessInv(t, r, t.procs[r]) {
      assert ProcessInv(s, r, t.procs[r]);
    }
  }

  lemma TickKeepsInv(s: State, elapsed: nat)
    requires Inv(s)
    ensures Inv(Do(s, Tick(elapsed)))
  {
    var t := Do(s, Tick(elapsed));
    forall r | r in t.procs ensures ProcessInv(t, r, t.procs[r]) {
      assert ProcessInv(s, r, s.procs[r]);
    }
  }

  /** A granted statement takes nothing from anyone whose lease still runs, and only lengthens the caller's own. */
  lemma AcquireKeepsBacking(s: State, t: State, p: string, shard: nat, r: string, other: nat, until: int)
    requires RowsWithinTtl(s) && p in s.procs && Backed(s, r, other, until)
    requires t.clock == s.clock && t.rows == Acquire(s.rows, shard, p, s.procs[p].ttl, s.clock).0
    ensures Backed(t, r, other, until)
  {
  }

  lemma ExecuteKeepsInv(s: State, p: string)
    requires Inv(s) && p in s.procs && s.procs[p].pc.Calling?
    ensures Inv(Do(s, By(p, Execute)))
  {
    var t := Do(s, By(p, Execute));
    var shard := s.procs[p].pc.shard;
    forall r | r in t.procs ensures ProcessInv(t, r, t.procs[r]) {
      assert ProcessInv(s, r, s.procs[r]);
      var q := s.procs[r];
      forall k | k in q.known ensures Backed(t, r, k, q.known[k]) {
        AcquireKeepsBacking(s, t, p, shard, r, k, q.known[k]);
      }
      if r != p && q.pc.Answered? && q.pc.granted {
        AcquireKeepsBacking(s, t, p, shard, r, q.pc.shard, q.pc.expires);
      }
    }
  }

  lemma ReleaseKeepsInv(s: State, p: string, executed: bool)
    requires Inv(s) && p in s.procs && (s.procs[p].pc.Releasing? || s.procs[p].pc.StopReleasing?)
    ensures Inv(Do(s, By(p, Release(executed))))
  {
    var t := Do(s, By(p, Release(executed)));
    forall r | r in t.procs ensures ProcessInv(t, r, t.procs[r]) {
      assert ProcessInv(s, r, s.procs[r]);
    }
  }

  lemma {:induction false} StepKeepsInv(s: State, a: Action)
    requires Inv(s)
    ensures Inv(Do(s, a))
  {
    match a
    case Tick(elapsed) => TickKeepsInv(s, elapsed);
    case Join(p, ttl) =>
      if p !in s.procs {
        LocalStepKeepsInv(s, p, Process(ttl, Idle, {}, map[]));
      }
    case By(p, move) =>
      if p in s.procs {
        if move.Execute? && s.procs[p].pc.Calling? {
          ExecuteKeepsInv(s, p);
        } else if move.Release? && (s.procs[p].pc.Releasing? || s.procs[p].pc.StopReleasing?) {
          ReleaseKeepsInv(s, p, move.executed);
        } else {
          OtherMoveIsLocal(s, p, move);
          LocalStepKeepsInv(s, p, Do(s, a).procs[p]);
        }
      }
  }

  /** Every other move changes the process alone and leaves it sound. */
  lemma OtherMoveIsLocal(s: State, p: string, move: Move)
    requires Inv(s) && p in s.procs
    requires !(move.Execute? && s.procs[p].pc.Calling?)
    requires !(move.Release? && (s.procs[p].pc.Releasing? || s.procs[p].pc.StopReleasing?))
    ensures var t := Do(s, By(p, move));
            && p in t.procs && t == With(s, p, t.procs[p]) && t.procs[p].ttl == s.procs[p].ttl
            && ProcessInv(s, p, t.procs[p])
  {
    assert ProcessInv(s, p, s.procs[p]);
    assert s == With(s, p, s.procs[p]);
  }

  lemma {:induction false} EveryRunKeepsInv(actions: seq<Action>)
    ensures Inv(Run(actions))
  {
    if actions == [] {
      assert Inv(INITIAL);
    } else {
      var before := actions[..|actions| - 1];
      EveryRunKeepsInv(before);
      StepKeepsInv(Run(before), actions[|actions| - 1]);
    }
  }

  /** The process has the shard's session open and its last known grant has not run out. */
  predicate LiveSession(s: State, p: string, shard: nat) {
    p in s.procs && shard in s.procs[p].sessions && shard in s.procs[p].known && s.procs[p].known[shard] >= s.clock
  }

  /** In every reachable state no shard has two processes with live sessions, every open session goes back to
      a grant its process saw, and a live session's row is still its process's. */
  lemma LiveSessionsAreExclusive(actions: seq<Action>, p: string, q: string, shard: nat)
    ensures var s := Run(actions);
            && (LiveSession(s, p, shard) && LiveSession(s, q, shard) ==> p == q)
            && (p in s.procs && shard in s.procs[p].sessions ==> shard in s.procs[p].known)
            && (LiveSession(s, p, shard) ==> shard in s.rows && s.rows[shard].owner == p
                                             && s.rows[shard].expires >= s.procs[p].known[shard])
  {
    EveryRunKeepsInv(actions);
    var s := Run(actions);
    if p in s.procs {
      assert ProcessInv(s, p, s.procs[p]);
    }
    if q in s.procs {
      assert ProcessInv(s, q, s.procs[q]);
    }
  }

  // ---- The reconcile pass takes these steps ----

  function Moves(s: State, p: string, moves: seq<Move>): State
    decreases |moves|
  {
    if moves == [] then s else Moves(Do(s, By(p, moves[0])), p, moves[1..])
  }

  lemma {:induction false} OneMove(s: State, p: string, move: Move, rest: seq<Move>)
    ensures Moves(s, p, [move] + rest) == Moves(Do(s, By(p, move)), p, rest)
  {
    hide Do;
    assert ([move] + rest)[1..] == rest;
  }

  /** The steps of one shard's turn in a pass, by what the lease call answered; `executed` says of a call without
      an answer, and of a release, whether it took effect. */
  function TurnMoves(shard: nat, isOpen: bool, reply: Shards.Reply, executed: bool): seq<Move> {
    match reply.lease
    case Failed => if executed then [Call(shard), Execute, Move.AnswerLost] else [Call(shard), CallFails]
    case Granted => [Call(shard), Execute, SeeAnswer] + if isOpen then [] else [Open(reply.opens)]
    case Denied => [Call(shard), Execute, SeeAnswer] + if isOpen then [Release(executed)] else []
  }

  /** Shards.ReconcileShard, run without interruption, is a run of the protocol: it leaves the process idle,
      with a session for the shard just when the pass body leaves one, and with its other sessions as before. */
  lemma {:induction false} PassBodyIsARunOfTheProtocol(s: State, p: string, shard: nat, before: Option<Shards.Session>,
                                                       reply: Shards.Reply, executed: bool)
    requires p in s.procs && s.procs[p].pc.Idle? && (shard in s.procs[p].sessions <==> before.Some?)
    requires reply.lease != Shards.Failed ==>
               (reply.lease == Shards.Granted <==> Acquire(s.rows, shard, p, s.procs[p].ttl, s.clock).1)
    ensures var t := Moves(s, p, TurnMoves(shard, before.Some?, reply, executed));
            && p in t.procs && t.procs[p].pc.Idle?
            && (shard in t.procs[p].sessions <==> Shards.Reconciled(before, reply).Some?)
            && (forall other :: other != shard ==> (other in t.procs[p].sessions <==> other in s.procs[p].sessions))
  {
    hide Acquire, Leases.Release, LeaseLength, Moves;
    var called := Do(s, By(p, Call(shard)));
    if reply.lease == Shards.Failed && !executed {
      ThreeMoves(s, p, Call(shard), CallFails, []);
    } else {
      var ran := Do(called, By(p, Execute));
      var third := if reply.lease == Shards.Failed then Move.AnswerLost else SeeAnswer;
      var rest := TurnMoves(shard, before.Some?, reply, executed)[3..];
      assert TurnMoves(shard, before.Some?, reply, executed) == [Call(shard)] + [Execute] + ([third] + rest);
      ThreeMoves(s, p, Call(shard), Execute, [third] + rest);
      OneMove(ran, p, third, rest);
      LastMove(Do(ran, By(p, third)), p, rest);
    }
  }

  lemma {:induction false} ThreeMoves(s: State, p: string, first: Move, second: Move, rest: seq<Move>)
    ensures Moves(s, p, [first, second]) == Do(Do(s, By(p, first)), By(p, second))
    ensures Moves(s, p, [first] + [second] + rest) == Moves(Do(Do(s, By(p, first)), By(p, second)), p, rest)
  {
    hide Do;
    assert [first] + [second] + rest == [first] + ([second] + rest);
    assert [first, second] == [first] + ([second] + []);
    OneMove(s, p, first, [second] + rest);
    OneMove(Do(s, By(p, first)), p, second, rest);
    OneMove(s, p, first, [second] + []);
    OneMove(Do(s, By(p, first)), p, second, []);
  }

  lemma {:induction false} LastMove(s: State, p: string, rest: seq<Move>)
    requires |rest| <= 1
    ensures Moves(s, p, rest) == if rest == [] then s else Do(s, By(p, rest[0]))
  {
    hide Do;
    if rest != [] {
      assert rest == [rest[0]] + [];
      OneMove(s, p, rest[0], []);
    }
  }

  /** The steps of Stop after the reconciler has ended: close, then release, shard by shard. */
  function StopMoves(order: seq<nat>, executed: nat -> bool): seq<Move> {
    if order == [] then []
    else [StopClose(order[0])] + ([Release(executed(order[0]))] + StopMoves(order[1..], executed))
  }

  lemma {:induction false} NoMoves(s: State, p: string)
    ensures Moves(s, p, []) == s
  {
    hide Do;
  }

  lemma {:induction false} RestOfOrder(order: seq<nat>, sessions: set<nat>)
    requires order != [] && multiset(order) == multiset(sessions)
    ensures order[0] in sessions && multiset(order[1..]) == multiset(sessions - {order[0]})
  {
    assert order == [order[0]] + order[1..];
    assert order[0] in multiset(order);
    assert multiset(sessions - {order[0]}) == multiset(sessions) - multiset{order[0]};
  }

  lemma {:induction false} CloseAndRelease(s: State, p: string, shard: nat, executed: bool)
    requires p in s.procs && s.procs[p].pc.Stopping? && shard in s.procs[p].sessions
    ensures var t := Do(Do(s, By(p, StopClose(shard))), By(p, Release(executed)));
            && p in t.procs && t.procs[p].pc.Stopping?
            && t.procs[p].sessions == s.procs[p].sessions - {shard} && t.procs[p].known == s.procs[p].known - {shard}
  {
    hide Leases.Release;
  }

  /** Shards.Stop, in whatever order it meets the sessions and whichever releases take effect, is a run of the protocol
      that leaves no session open and gives up every grant behind one. */
  lemma {:induction false} StopIsARunOfTheProtocol(s: State, p: string, order: seq<nat>, executed: nat -> bool)
    requires p in s.procs && s.procs[p].pc.Stopping?
    requires multiset(order) == multiset(s.procs[p].sessions)
    ensures var t := Moves(s, p, StopMoves(order, executed));
            && p in t.procs && t.procs[p].pc.Stopping? && t.procs[p].sessions == {}
            && t.procs[p].known.Keys == s.procs[p].known.Keys - s.procs[p].sessions
    decreases |order|
  {
    hide Do, Moves;
    if order == [] {
      NoMoves(s, p);
      assert s.procs[p].sessions == {} by {
        assert forall shard :: shard in s.procs[p].sessions ==> shard in multiset(order);
      }
    } else {
      var shard, rest := order[0], StopMoves(order[1..], executed);
      RestOfOrder(order, s.procs[p].sessions);
      var closed := Do(s, By(p, StopClose(shard)));
      var t := Do(closed, By(p, Release(executed(shard))));
      OneMove(s, p, StopClose(shard), [Release(executed(shard))] + rest);
      OneMove(closed, p, Release(executed(shard)), rest);
      CloseAndRelease(s, p, shard, executed(shard));
      StopIsARunOfTheProtocol(t, p, order[1..], executed);
    }
  }
}

/** One runtime's shard sessions: a reconcile pass lets them follow the leases, Stop gives them up. */
module Shards {
  import opened Model

  /** A connected gateway session; distinct sessions have distinct handles. */
  type Session = nat

  datatype LeaseReply = Failed | Granted | Denied

  /** What the outside answers for one shard of a pass: the lease call, and the opening should it come to that. */
  datatype Reply = Reply(lease: LeaseReply, opens: bool, handle: Session)

  /** Calls the runtime makes on the gateway and on the lease table. */
  datatype Act = Opened(shard: nat, session: Session) | Closed(shard: nat, session: Session) | Released(shard: nat)

  function Get(sessions: map<nat, Session>, shard: nat): Option<Session> {
    if shard in sessions then Some(sessions[shard]) else None
  }

  /** What a pass makes of one shard's session. */
  function Reconciled(before: Option<Session>, reply: Reply): Option<Session> {
    match reply.lease
    case Failed => before
    case Granted => if before.None? && reply.opens then Some(reply.handle) else before
    case Denied => None
  }

  /** What a pass over shards 0..|replies| makes of the session map. */
  ghost predicate IsPass(before: map<nat, Session>, replies: seq<Reply>, after: map<nat, Session>) {
    && (forall s :: 0 <= s < |replies| ==> Get(after, s) == Reconciled(Get(before, s), replies[s]))
    && (forall s: nat :: s >= |replies| ==> Get(after, s) == Get(before, s))
  }

  function ActsFor(shard: nat, before: Option<Session>, reply: Reply): seq<Act> {
    if reply.lease == Granted && before.None? && reply.opens then [Opened(shard, reply.handle)]
    else if reply.lease == Denied && before.Some? then [Closed(shard, before.value), Released(shard)]
    else []
  }

  function PassActs(before: map<nat, Session>, replies: seq<Reply>): seq<Act> {
    if replies == [] then [] else
    var n := |replies| - 1;
    PassActs(before, replies[..n]) + ActsFor(n, Get(before, n), replies[n])
  }

  function StopActs(before: map<nat, Session>, order: seq<nat>): seq<Act>
    requires forall i :: 0 <= i < |order| ==> order[i] in before
  {
    if order == [] then [] else
    var n := |order| - 1;
    StopActs(before, order[..n]) + [Closed(order[n], before[order[n]]), Released(order[n])]
  }

  lemma OneShardFewer(shards: set<nat>, rest: set<nat>, shard: nat)
    requires shard in rest && rest <= shards
    ensures multiset(shards - (rest - {shard})) == multiset(shards - rest) + multiset{shard}
  {
    assert shards - (rest - {shard}) == (shards - rest) + {shard};
  }

  lemma {:induction false} NothingPassed(before: map<nat, Session>)
    ensures PassActs(before, []) == []
  {
  }

  lemma {:induction false} OneMorePassed(before: map<nat, Session>, replies: seq<Reply>, n: nat)
    requires n < |replies|
    ensures PassActs(before, replies[..n + 1]) ==
            PassActs(before, replies[..n]) + ActsFor(n, Get(before, n), replies[n])
  {
    assert replies[..n + 1][..n] == replies[..n];
  }

  lemma {:induction false} NothingStopped(before: map<nat, Session>)
    ensures StopActs(before, []) == []
  {
  }

  lemma {:induction false} OneMoreStopped(before: map<nat, Session>, order: seq<nat>, shard: nat)
    requires shard in before && forall i :: 0 <= i < |order| ==> order[i] in before
    ensures StopActs(before, order + [shard]) ==
            StopActs(before, order) + [Closed(shard, before[shard]), Released(shard)]
  {
    assert (order + [shard])[..|order|] == order;
  }

  class ShardRuntime {
    const shardCount: nat
    var running: bool
    var shardSessions: map<nat, Session>
    ghost var acts: seq<Act>

    constructor (shardCount: nat)
      ensures this.shardCount == shardCount && !running && shardSessions == map[] && acts == []
    {
      this.shardCount := shardCount;
      running := false;
      shardSessions := map[];
      acts := [];
    }

    method ReconcileShards(replies: seq<Reply>)
      requires |replies| == shardCount
      modifies `shardSessions, `acts
      ensures IsPass(old(shardSessions), replies, shardSessions)
      ensures acts == old(acts) + PassActs(old(shardSessions), replies)
    {
      hide PassActs;
      NothingPassed(shardSessions);
      for shard := 0 to shardCount
        invariant IsPass(old(shardSessions), replies[..shard], shardSessions)
        invariant acts == old(acts) + PassActs(old(shardSessions), replies[..shard])
      {
        OneMorePassed(old(shardSessions), replies, shard);
        ReconcileShard(shard, replies[shard]);
      }
      assert replies[..shardCount] == replies;
    }

    /** The body of the pass for one shard. */
    method ReconcileShard(shard: nat, reply: Reply)
      modifies `shardSessions, `acts
      ensures Get(shardSessions, shard) == Reconciled(Get(old(shardSessions), shard), reply)
      ensures forall s: nat :: s != shard ==> Get(shardSessions, s) == Get(old(shardSessions), s)
      ensures acts == old(acts) + ActsFor(shard, Get(old(shardSessions), shard), reply)
    {
      if reply.lease == Failed {
        return;
      }
      var owned := reply.lease == Granted;
      var isRunning := shard in shardSessions;
      if owned && !isRunning {
        StartShardSession(shard, reply);
        return;
      }
      if !owned && isRunning {
        acts := acts + [Closed(shard, shardSessions[shard]), Released(shard)];
        shardSessions := shardSessions - {shard};
      }
    }

    method StartShardSession(shard: nat, reply: Reply)
      modifies `shardSessions, `acts
      ensures shardSessions == if reply.opens then old(shardSessions)[shard := reply.handle] else old(shardSessions)
      ensures acts == old(acts) + if reply.opens then [Opened(shard, reply.handle)] else []
    {
      if !reply.opens {
        return;
      }
      acts := acts + [Opened(shard, reply.handle)];
      shardSessions := shardSessions[shard := reply.handle];
    }

    /** Closes every session and only then gives its lease back, in whatever order the map yields them. */
    method Stop() returns (ghost order: seq<nat>)
      modifies this
      ensures !running
      ensures !old(running) ==> shardSessions == old(shardSessions) && acts == old(acts)
      ensures old(running) ==>
                && shardSessions == map[]
                && multiset(order) == multiset(old(shardSessions.Keys))
                && (forall i :: 0 <= i < |order| ==> order[i] in old(shardSessions))
                && acts == old(acts) + StopActs(old(shardSessions), order)
    {
      hide StopActs;
      NothingStopped(shardSessions);
      order := [];
      if !running {
        return;
      }
      running := false;
      var rest: set<nat> := shardSessions.Keys;
      ghost var sessions := shardSessions;
      while rest != {}
        invariant rest <= sessions.Keys
        invariant shardSessions == sessions && !running
        invariant forall i :: 0 <= i < |order| ==> order[i] in sessions
        invariant multiset(order) == multiset(sessions.Keys - rest)
        invariant acts == old(acts) + StopActs(sessions, order)
        decreases |rest|
      {
        var shard :| shard in rest;
        acts := acts + [Closed(shard, shardSessions[shard]), Released(shard)];
        OneShardFewer(sessions.Keys, rest, shard);
        OneMoreStopped(sessions, order, shard);
        order := order + [shard];
        rest := rest - {shard};
      }
      assert sessions.Keys - rest == sessions.Keys;
      shardSessions := map[];
    }
  }

  /** The shards whose lease the pass was granted. */
  function GrantedIn(replies: seq<Reply>): set<nat> {
    set s: nat | s < |replies| && replies[s].lease == Granted
  }

  ghost predicate InRange(sessions: map<nat, Session>, n: nat) {
    forall s :: s in sessions ==> s < n
  }

  /** Keys stay within range, and the sessions are exactly the granted shards
      just when no lease call failed on a shard with a session and no opening failed where one was needed. */
  lemma PassFollowsLeases(before: map<nat, Session>, replies: seq<Reply>, after: map<nat, Session>)
    requires InRange(before, |replies|) && IsPass(before, replies, after)
    ensures InRange(after, |replies|)
    ensures after.Keys == GrantedIn(replies) <==>
            forall s :: 0 <= s < |replies| ==>
              && (replies[s].lease == Failed ==> s !in before)
              && (replies[s].lease == Granted && s !in before ==> replies[s].opens)
  {
    assert forall s :: s in after && s >= |replies| ==> Get(after, s) == Get(before, s) && s in before;
    assert forall s :: 0 <= s < |replies| ==> (s in after <==> Reconciled(Get(before, s), replies[s]).Some?);
    if after.Keys == GrantedIn(replies) {
      forall s | 0 <= s < |replies|
        ensures replies[s].lease == Failed ==> s !in before
        ensures replies[s].lease == Granted && s !in before ==> replies[s].opens
      {
        assert s in after.Keys <==> s in GrantedIn(replies);
      }
    }
  }

  /** A session is only ever replaced by none or opened where there was none; a failed call leaves it alone. */
  lemma SessionsAreNotSwapped(before: map<nat, Session>, replies: seq<Reply>, after: map<nat, Session>, s: nat)
    requires IsPass(before, replies, after) && s in before
    ensures s in after ==> after[s] == before[s]
    ensures s !in after ==> s < |replies| && replies[s].lease == Denied
  {
    assert Get(after, s) == if s < |replies| then Reconciled(Get(before, s), replies[s]) else Get(before, s);
  }

  lemma {:induction false} StopActsLength(before: map<nat, Session>, order: seq<nat>)
    requires forall i :: 0 <= i < |order| ==> order[i] in before
    ensures |StopActs(before, order)| == 2 * |order|
  {
    if order != [] {
      StopActsLength(before, order[..|order| - 1]);
    }
  }

  /** Stop closes each session right before it releases that shard. */
  lemma {:induction false} StopClosesFirst(before: map<nat, Session>, order: seq<nat>, k: nat)
    requires forall i :: 0 <= i < |order| ==> order[i] in before
    requires k < |order|
    ensures var acts := StopActs(before, order);
            && |acts| == 2 * |order|
            && acts[2 * k] == Closed(order[k], before[order[k]]) && acts[2 * k + 1] == Released(order[k])
  {
    var n := |order| - 1;
    StopActsLength(before, order);
    StopActsLength(before, order[..n]);
    if k < n {
      StopClosesFirst(before, order[..n], k);
    }
  }
}

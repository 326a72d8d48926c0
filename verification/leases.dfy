/** The lease row per Discord shard: taken when free, renewed by its owner, taken over once expired. */
module Leases {
  import opened Text
  import opened Model

  /** Times and durations are in nanoseconds. */
  const SECOND: int := 1_000_000_000

  /** The whole seconds an interval text asks for. */
  function IntervalSeconds(ttl: int): (s: int)
    ensures s >= 1
    ensures ttl <= 0 ==> s == 45
    ensures 0 < ttl < SECOND ==> s == 1
    ensures ttl >= SECOND ==> s * SECOND <= ttl < (s + 1) * SECOND
  {
    if ttl <= 0 then 45 else if ttl / SECOND < 1 then 1 else ttl / SECOND
  }

  function LeaseLength(ttl: int): (d: int)
    ensures d >= SECOND
  {
    IntervalSeconds(ttl) * SECOND
  }

  datatype Lease = Lease(owner: string, expires: int)

  /** The insert on conflict: the rows afterwards and whether a row was returned. */
  function Acquire(rows: map<int, Lease>, shard: int, owner: string, ttl: int, now: int): (map<int, Lease>, bool) {
    if shard in rows && rows[shard].owner != owner && rows[shard].expires >= now then (rows, false)
    else (rows[shard := Lease(owner, now + LeaseLength(ttl))], true)
  }

  function Release(rows: map<int, Lease>, shard: int, owner: string): map<int, Lease> {
    if shard in rows && rows[shard].owner == owner then rows - {shard} else rows
  }

  datatype Failure = NoFailure | NotExecuted | AnswerLost

  datatype Error = OwnerRequired | Database

  predicate Owns(rows: map<int, Lease>, shard: int, owner: string) {
    shard in rows && rows[shard].owner == owner
  }

  class LeaseTable {
    var rows: map<int, Lease>

    /** A lost answer is an error to the caller although the statement took effect. */
    method AcquireOrRenewDiscordShard(shard: int, ownerId: string, ttl: int, now: int, failure: Failure)
      returns (r: Result<bool, Error>)
      modifies this
      ensures Blank(ownerId) ==> r == Err(OwnerRequired) && rows == old(rows)
      ensures !Blank(ownerId) && failure == NotExecuted ==> r == Err(Database) && rows == old(rows)
      ensures !Blank(ownerId) && failure != NotExecuted ==>
                var (after, granted) := Acquire(old(rows), shard, TrimSpace(ownerId), ttl, now);
                rows == after && r == if failure == AnswerLost then Err(Database) else Ok(granted)
    {
      var owner := TrimSpace(ownerId);
      if owner == "" {
        return Err(OwnerRequired);
      }
      var d := ttl;
      if ttl <= 0 {
        d := 45 * SECOND;
      }
      if failure == NotExecuted {
        return Err(Database);
      }
      var (after, granted) := Acquire(rows, shard, owner, d, now);
      rows := after;
      if failure == AnswerLost {
        return Err(Database);
      }
      return Ok(granted);
    }

    method ReleaseDiscordShard(shard: int, ownerId: string, failure: Failure) returns (ok: bool)
      modifies this
      ensures ok <==> failure == NoFailure
      ensures failure == NotExecuted ==> rows == old(rows)
      ensures failure != NotExecuted ==>
                && rows.Keys == old(rows).Keys - (if Owns(old(rows), shard, TrimSpace(ownerId)) then {shard} else {})
                && forall s :: s in rows ==> rows[s] == old(rows)[s]
    {
      if failure != NotExecuted {
        rows := Release(rows, shard, TrimSpace(ownerId));
      }
      ok := failure == NoFailure;
    }
  }

  // ---- Every run of acquiring, renewing and releasing ----

  datatype Step =
    | AcquireStep(shard: int, owner: string, ttl: int, now: int)
    | ReleaseStep(shard: int, owner: string)

  function Apply(rows: map<int, Lease>, step: Step): map<int, Lease> {
    match step
    case AcquireStep(shard, owner, ttl, now) => Acquire(rows, shard, owner, ttl, now).0
    case ReleaseStep(shard, owner) => Release(rows, shard, owner)
  }

  function Run(steps: seq<Step>): map<int, Lease> {
    if steps == [] then map[] else Apply(Run(steps[..|steps| - 1]), steps[|steps| - 1])
  }

  predicate Granted(steps: seq<Step>, i: nat)
    requires i < |steps|
  {
    var s := steps[i];
    s.AcquireStep? && Acquire(Run(steps[..i]), s.shard, s.owner, s.ttl, s.now).1
  }

  /** The database clock does not run backwards. */
  predicate InOrder(steps: seq<Step>) {
    forall i, j :: 0 <= i < j < |steps| && steps[i].AcquireStep? && steps[j].AcquireStep? ==>
        steps[i].now <= steps[j].now
  }

  /** When the owner's latest grant of the shard runs out; None when it never had one or gave it back since.
      Read off the grants and releases alone, not off the table. */
  function HeldUntil(steps: seq<Step>, shard: int, owner: string): Option<int> {
    if steps == [] then None else
    var n := |steps| - 1;
    var s := steps[n];
    if s.shard != shard || s.owner != owner then HeldUntil(steps[..n], shard, owner)
    else if s.ReleaseStep? then None
    else if Granted(steps, n) then Some(s.now + LeaseLength(s.ttl))
    else HeldUntil(steps[..n], shard, owner)
  }

  /** The owner has a grant that is neither given back nor run out before now. */
  predicate Holds(steps: seq<Step>, shard: int, owner: string, now: int) {
    var held := HeldUntil(steps, shard, owner);
    held.Some? && held.value >= now
  }

  ghost predicate NobodyElseHolds(steps: seq<Step>, shard: int, owner: string, now: int) {
    forall other :: other != owner ==> !Holds(steps, shard, other, now)
  }

  /** The row is the only unexpired grant: it is its owner's, and every other owner's ran out before now. */
  ghost predicate RowIsTheHolder(steps: seq<Step>, shard: int, owner: string, now: int) {
    var rows := Run(steps);
    if Owns(rows, shard, owner) then HeldUntil(steps, shard, owner) == Some(rows[shard].expires)
    else !Holds(steps, shard, owner, now)
  }

  lemma {:induction false} EveryRunKeepsTheHolder(steps: seq<Step>, shard: int, owner: string, now: int)
    requires InOrder(steps)
    requires forall s :: s in steps && s.AcquireStep? ==> s.now <= now
    ensures RowIsTheHolder(steps, shard, owner, now)
  {
    if steps != [] {
      var n := |steps| - 1;
      var s := steps[n];
      assert forall x :: x in steps[..n] ==> x in steps;
      EveryRunKeepsTheHolder(steps[..n], shard, owner, now);
      if s.AcquireStep? {
        EarlierCallsAreEarlier(steps, n);
        EveryRunKeepsTheHolder(steps[..n], shard, owner, s.now);
        AcquireKeepsTheHolder(steps, shard, owner, now);
      } else {
        ReleaseKeepsTheHolder(steps, shard, owner, now);
      }
    }
  }

  lemma EarlierCallsAreEarlier(steps: seq<Step>, n: nat)
    requires InOrder(steps) && n < |steps| && steps[n].AcquireStep?
    ensures forall x :: x in steps[..n] && x.AcquireStep? ==> x.now <= steps[n].now
  {
    forall x | x in steps[..n] && x.AcquireStep? ensures x.now <= steps[n].now {
      var i :| 0 <= i < n && steps[..n][i] == x;
      assert steps[i] == x;
    }
  }

  lemma AcquireKeepsTheHolder(steps: seq<Step>, shard: int, owner: string, now: int)
    requires steps != [] && steps[|steps| - 1].AcquireStep? && steps[|steps| - 1].now <= now
    requires RowIsTheHolder(steps[..|steps| - 1], shard, owner, now)
    requires RowIsTheHolder(steps[..|steps| - 1], shard, owner, steps[|steps| - 1].now)
    ensures RowIsTheHolder(steps, shard, owner, now)
  {
  }

  lemma ReleaseKeepsTheHolder(steps: seq<Step>, shard: int, owner: string, now: int)
    requires steps != [] && steps[|steps| - 1].ReleaseStep?
    requires RowIsTheHolder(steps[..|steps| - 1], shard, owner, now)
    ensures RowIsTheHolder(steps, shard, owner, now)
  {
  }

  /** A request is granted exactly when no other owner holds a grant that is neither expired nor released. */
  lemma {:induction false} GrantedIffNobodyElseHolds(steps: seq<Step>, i: nat)
    requires InOrder(steps) && i < |steps| && steps[i].AcquireStep?
    ensures Granted(steps, i) <==> NobodyElseHolds(steps[..i], steps[i].shard, steps[i].owner, steps[i].now)
  {
    hide HeldUntil, Run, InOrder;
    var s, before := steps[i], steps[..i];
    var rows := Run(before);
    PrefixIsInOrder(steps, i);
    EarlierCallsAreEarlier(steps, i);
    if Granted(steps, i) {
      forall other | other != s.owner ensures !Holds(before, s.shard, other, s.now) {
        EveryRunKeepsTheHolder(before, s.shard, other, s.now);
      }
    } else {
      var holder := rows[s.shard].owner;
      EveryRunKeepsTheHolder(before, s.shard, holder, s.now);
      assert holder != s.owner && Holds(before, s.shard, holder, s.now);
    }
  }

  lemma {:induction false} PrefixIsInOrder(steps: seq<Step>, n: nat)
    requires InOrder(steps) && n <= |steps|
    ensures InOrder(steps[..n])
  {
  }

  /** After a grant, as long as its owner has not released, nobody else is granted the shard up to and
      including the moment that owner's latest grant runs out. */
  lemma {:induction false} NobodyElseUntilExpiry(steps: seq<Step>, i: nat, j: nat)
    requires InOrder(steps) && i < j < |steps|
    requires Granted(steps, i) && Granted(steps, j)
    requires steps[j].shard == steps[i].shard && steps[j].owner != steps[i].owner
    requires forall k :: i < k < j ==> steps[k] != ReleaseStep(steps[i].shard, steps[i].owner)
    ensures var held := HeldUntil(steps[..j], steps[i].shard, steps[i].owner);
            held.Some? && held.value >= steps[i].now + SECOND && steps[j].now > held.value
  {
    hide HeldUntil, Run, InOrder, Acquire;
    StillHeld(steps, i, j);
    GrantedIffNobodyElseHolds(steps, j);
    assert !Holds(steps[..j], steps[j].shard, steps[i].owner, steps[j].now);
  }

  lemma {:induction false} GrantIsHeld(steps: seq<Step>, i: nat)
    requires i < |steps| && Granted(steps, i)
    ensures HeldUntil(steps[..i + 1], steps[i].shard, steps[i].owner) == Some(steps[i].now + LeaseLength(steps[i].ttl))
  {
    assert steps[..i + 1][..i] == steps[..i];
  }

  /** A step that is not the owner's release leaves a hold, or renews it to a later end. */
  lemma {:induction false} HoldGoesOn(steps: seq<Step>, j: nat, shard: int, owner: string, start: int)
    requires j < |steps| && steps[j] != ReleaseStep(shard, owner)
    requires var held := HeldUntil(steps[..j], shard, owner); held.Some? && held.value >= start + SECOND
    requires steps[j].AcquireStep? ==> steps[j].now >= start
    ensures var held := HeldUntil(steps[..j + 1], shard, owner); held.Some? && held.value >= start + SECOND
  {
    hide Run, Acquire;
    assert steps[..j + 1][..j] == steps[..j];
  }

  lemma {:induction false} StillHeld(steps: seq<Step>, i: nat, j: nat)
    requires InOrder(steps) && i < j <= |steps| && Granted(steps, i)
    requires forall k :: i < k < j ==> steps[k] != ReleaseStep(steps[i].shard, steps[i].owner)
    ensures var held := HeldUntil(steps[..j], steps[i].shard, steps[i].owner);
            held.Some? && held.value >= steps[i].now + SECOND
  {
    hide HeldUntil, Run, Acquire;
    if j == i + 1 {
      GrantIsHeld(steps, i);
    } else {
      StillHeld(steps, i, j - 1);
      HoldGoesOn(steps, j - 1, steps[i].shard, steps[i].owner, steps[i].now);
    }
  }
}

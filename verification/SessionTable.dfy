/** The records of command-sessions.ts and the two counts its limits are about. */
module SessionTable {
  import opened Results
  import opened Ordering

  const MAX_RUNNING := 32
  const MAX_PER_SCOPE := 8
  const MAX_RETAINED := 128

  datatype Status = Running | Completed | Failed | Cancelled | TimedOut

  /** `ended`: the output of the worker has been consumed to its end. */
  datatype Session = Session(scope: string, runId: string, callId: string, status: Status, stdout: string,
                             stderr: string, truncated: bool, reading: bool, ended: bool)
  {
    predicate Busy() {
      status.Running? || reading
    }

    predicate OwnedBy(scope: string, runId: string, callId: string) {
      this.scope == scope && this.runId == runId && this.callId == callId
    }
  }

  type Sessions = map<string, Session>

  predicate Counted(s: Session, scope: Option<string>) {
    s.status.Running? && (scope.None? || s.scope == scope.value)
  }

  predicate Known(sessions: Sessions, ids: seq<string>) {
    forall id :: id in ids ==> id in sessions
  }

  /** How many of `ids` run, in one scope or in all. */
  function Count(sessions: Sessions, ids: seq<string>, scope: Option<string>): nat
    requires Known(sessions, ids)
  {
    if ids == [] then 0
    else (if Counted(sessions[ids[0]], scope) then 1 else 0) + Count(sessions, ids[1..], scope)
  }

  lemma {:induction false} CountConcat(sessions: Sessions, a: seq<string>, b: seq<string>, scope: Option<string>)
    requires Known(sessions, a + b)
    ensures Known(sessions, a) && Known(sessions, b)
    ensures Count(sessions, a + b, scope) == Count(sessions, a, scope) + Count(sessions, b, scope)
  {
    assert forall id :: id in a ==> id in a + b;
    assert forall id :: id in b ==> id in a + b;
    if a == [] {
      assert a + b == b;
    } else {
      assert (a + b)[1..] == a[1..] + b;
      CountConcat(sessions, a[1..], b, scope);
    }
  }

  /** No session of `after` counts that did not count in `before`. */
  lemma {:induction false} CountShrinks(before: Sessions, after: Sessions, ids: seq<string>, scope: Option<string>)
    requires Known(before, ids) && Known(after, ids)
    requires forall id :: id in ids && Counted(after[id], scope) ==> Counted(before[id], scope)
    ensures Count(after, ids, scope) <= Count(before, ids, scope)
  {
    if ids != [] { CountShrinks(before, after, ids[1..], scope); }
  }

  ghost function CountedSet(sessions: Sessions, ids: seq<string>, scope: Option<string>): set<string>
    requires Known(sessions, ids)
  {
    set id | id in ids && Counted(sessions[id], scope)
  }

  lemma CountedSetStep(sessions: Sessions, first: string, rest: seq<string>, scope: Option<string>)
    requires Known(sessions, [first] + rest)
    ensures CountedSet(sessions, [first] + rest, scope) ==
            CountedSet(sessions, rest, scope) + if Counted(sessions[first], scope) then {first} else {}
  {
    hide Counted;
    assert forall id :: id in [first] + rest <==> id == first || id in rest;
  }

  /** The count is the size of the set of running sessions. */
  lemma {:induction false} CountIsSize(sessions: Sessions, ids: seq<string>, scope: Option<string>)
    requires Known(sessions, ids) && NoRepeats(ids)
    ensures |CountedSet(sessions, ids, scope)| == Count(sessions, ids, scope)
  {
    if ids != [] {
      assert ids == [ids[0]] + ids[1..];
      CountIsSize(sessions, ids[1..], scope);
      CountedSetStep(sessions, ids[0], ids[1..], scope);
      assert ids[0] !in CountedSet(sessions, ids[1..], scope);
    }
  }

  // -------------------------------------------------------------------- pruning

  /** Oldest first, idle ended sessions are given up while there are too many. */
  function Pruned(sessions: Sessions, ids: seq<string>, excess: nat): seq<string>
    requires Known(sessions, ids)
  {
    if ids == [] || excess == 0 then ids
    else if sessions[ids[0]].Busy() then [ids[0]] + Pruned(sessions, ids[1..], excess)
    else Pruned(sessions, ids[1..], excess - 1)
  }

  /** One round of the deleting loop. */
  lemma PrunedRound(sessions: Sessions, ids: seq<string>, i: nat, excess: nat)
    requires Known(sessions, ids) && i < |ids| && excess > 0
    ensures Pruned(sessions, ids[i..], excess) ==
            if sessions[ids[i]].Busy() then [ids[i]] + Pruned(sessions, ids[i + 1..], excess)
            else Pruned(sessions, ids[i + 1..], excess - 1)
  {
    assert ids[i..][0] == ids[i] && ids[i..][1..] == ids[i + 1..];
  }

  lemma NothingPruned(sessions: Sessions, ids: seq<string>, excess: nat)
    requires Known(sessions, ids) && (ids == [] || excess == 0)
    ensures Pruned(sessions, ids, excess) == ids
  {
  }

  function Excess(ids: seq<string>): nat {
    if |ids| > MAX_RETAINED then |ids| - MAX_RETAINED else 0
  }

  function BusyOf(sessions: Sessions, ids: seq<string>): seq<string>
    requires Known(sessions, ids)
  {
    if ids == [] then []
    else (if sessions[ids[0]].Busy() then [ids[0]] else []) + BusyOf(sessions, ids[1..])
  }

  /** What pruning leaves: of some oldest part only the busy sessions, of the rest all; as
      many as allowed, or more only when all are busy. */
  lemma {:induction false} PrunedIs(sessions: Sessions, ids: seq<string>, excess: nat)
    requires Known(sessions, ids) && excess <= |ids|
    ensures var kept := Pruned(sessions, ids, excess);
            && (exists cut :: 0 <= cut <= |ids| && kept == BusyOf(sessions, ids[..cut]) + ids[cut..])
            && |kept| >= |ids| - excess
            && (|kept| > |ids| - excess ==> kept == BusyOf(sessions, ids))
  {
    if ids == [] || excess == 0 {
      assert ids == BusyOf(sessions, ids[..0]) + ids[0..];
    } else {
      var rest := ids[1..];
      var busy := sessions[ids[0]].Busy();
      var left := if busy then excess else excess - 1;
      if left <= |rest| {
        PrunedIs(sessions, rest, left);
        var cut :| 0 <= cut <= |rest| && Pruned(sessions, rest, left) == BusyOf(sessions, rest[..cut]) + rest[cut..];
        BusyCut(sessions, ids, cut);
        hide BusyOf;
        assert Pruned(sessions, ids, excess) == BusyOf(sessions, ids[..cut + 1]) + ids[cut + 1..];
      } else {
        PruneAll(sessions, rest, left);
        assert ids[..|ids|] == ids && ids[|ids|..] == [];
        assert Pruned(sessions, ids, excess) == BusyOf(sessions, ids[..|ids|]) + ids[|ids|..];
      }
    }
  }

  lemma BusyCut(sessions: Sessions, ids: seq<string>, cut: nat)
    requires Known(sessions, ids) && cut < |ids|
    ensures BusyOf(sessions, ids[..cut + 1]) + ids[cut + 1..] ==
            (if sessions[ids[0]].Busy() then [ids[0]] else []) + (BusyOf(sessions, ids[1..][..cut]) + ids[1..][cut..])
  {
    assert ids[..cut + 1][1..] == ids[1..][..cut] && ids[cut + 1..] == ids[1..][cut..];
  }

  lemma {:induction false} PruneAll(sessions: Sessions, ids: seq<string>, excess: nat)
    requires Known(sessions, ids) && excess >= |ids|
    ensures Pruned(sessions, ids, excess) == BusyOf(sessions, ids)
  {
    if ids != [] { PruneAll(sessions, ids[1..], if sessions[ids[0]].Busy() then excess else excess - 1); }
  }

  /** Pruning keeps order, keeps every busy session, and so keeps the counts. */
  lemma {:induction false} PrunedKeeps(sessions: Sessions, ids: seq<string>, excess: nat)
    requires Known(sessions, ids)
    ensures var kept := Pruned(sessions, ids, excess);
            && (forall id :: id in kept ==> id in ids)
            && (forall id :: id in ids && sessions[id].Busy() ==> id in kept)
            && (NoRepeats(ids) ==> NoRepeats(kept))
            && (forall scope :: Count(sessions, kept, scope) == Count(sessions, ids, scope))
  {
    if ids != [] && excess > 0 {
      var rest := ids[1..];
      PrunedKeeps(sessions, rest, if sessions[ids[0]].Busy() then excess else excess - 1);
      assert ids == [ids[0]] + rest;
    }
  }

  /** Pruning stops as soon as no more than the limit remain. */
  lemma {:induction false} PrunedLength(sessions: Sessions, ids: seq<string>, excess: nat)
    requires Known(sessions, ids)
    ensures |ids| - excess <= |Pruned(sessions, ids, excess)| <= |ids|
    ensures |Pruned(sessions, ids, excess)| == |ids| ==> Pruned(sessions, ids, excess) == ids
  {
    if ids != [] && excess > 0 {
      PrunedLength(sessions, ids[1..], if sessions[ids[0]].Busy() then excess else excess - 1);
    }
  }

  // ------------------------------------------------------- what every step keeps

  /** `retained` lists the sessions of the store's map in insertion order; `sessions` also
      holds records that left the map while something still refers to them. */
  ghost predicate Sound(sessions: Sessions, retained: seq<string>) {
    && Known(sessions, retained) && NoRepeats(retained)
    && (forall id :: id in sessions && sessions[id].status.Running? ==> id in retained)
    && (forall id :: id in sessions && sessions[id].ended ==> !sessions[id].status.Running?)
    && OwnersDiffer(sessions, retained)
    && WithinCapacity(sessions, retained)
  }

  ghost predicate OwnersDiffer(sessions: Sessions, retained: seq<string>)
    requires Known(sessions, retained)
  {
    forall a, b :: a in retained && b in retained && a != b ==>
      !sessions[a].OwnedBy(sessions[b].scope, sessions[b].runId, sessions[b].callId)
  }

  ghost predicate WithinCapacity(sessions: Sessions, retained: seq<string>)
    requires Known(sessions, retained)
  {
    Count(sessions, retained, None) <= MAX_RUNNING
    && forall scope :: Count(sessions, retained, Some(scope)) <= MAX_PER_SCOPE
  }

  /** A step of one session: its owner stays and it does not start running again. */
  predicate Continues(before: Session, after: Session) {
    after.OwnedBy(before.scope, before.runId, before.callId)
    && (after.status.Running? ==> before.status.Running? && !after.ended)
  }

  lemma SoundAfterStep(sessions: Sessions, retained: seq<string>, id: string, after: Session)
    requires Sound(sessions, retained) && id in sessions && Continues(sessions[id], after)
    ensures Sound(sessions[id := after], retained)
  {
    var next := sessions[id := after];
    forall scope ensures Count(next, retained, scope) <= Count(sessions, retained, scope) {
      CountShrinks(sessions, next, retained, scope);
    }
    assert Count(next, retained, None) <= Count(sessions, retained, None);
  }

  lemma SoundAfterStart(sessions: Sessions, retained: seq<string>, id: string, s: Session)
    requires Sound(sessions, retained) && id !in sessions && (s.ended ==> !s.status.Running?)
    requires forall other :: other in retained ==> !sessions[other].OwnedBy(s.scope, s.runId, s.callId)
    requires Count(sessions, retained, None) < MAX_RUNNING && Count(sessions, retained, Some(s.scope)) < MAX_PER_SCOPE
    ensures Sound(sessions[id := s], retained + [id])
  {
    var next := sessions[id := s];
    StartCounts(sessions, retained, id, s);
    assert Count(next, retained + [id], None) <= MAX_RUNNING;
    assert Known(next, retained + [id]);
    assert NoRepeats(retained + [id]);
  }

  lemma StartCounts(sessions: Sessions, retained: seq<string>, id: string, s: Session)
    requires Known(sessions, retained) && id !in sessions
    ensures var next := sessions[id := s];
            && Known(next, retained + [id])
            && forall scope :: Count(next, retained + [id], scope) <=
                               Count(sessions, retained, scope) + if Counted(s, scope) then 1 else 0
  {
    var next := sessions[id := s];
    assert Known(next, retained + [id]);
    forall scope ensures Count(next, retained + [id], scope) <=
                         Count(sessions, retained, scope) + if Counted(s, scope) then 1 else 0
    {
      CountConcat(next, retained, [id], scope);
      CountShrinks(sessions, next, retained, scope);
    }
  }

  lemma SoundAfterPrune(sessions: Sessions, retained: seq<string>, excess: nat)
    requires Sound(sessions, retained)
    ensures Sound(sessions, Pruned(sessions, retained, excess))
  {
    PrunedKeeps(sessions, retained, excess);
    hide Pruned, Count;
  }

  /** The counts are of the running sessions, in all and of one scope. */
  lemma RunningAre(sessions: Sessions, retained: seq<string>, key: string)
    requires Sound(sessions, retained)
    ensures Count(sessions, retained, None) == |set id | id in sessions && sessions[id].status == Running|
    ensures Count(sessions, retained, Some(key))
         == |set id | id in sessions && sessions[id].status == Running && sessions[id].scope == key|
  {
    CountIsSize(sessions, retained, None);
    CountIsSize(sessions, retained, Some(key));
    hide Count;
    assert (set id | id in sessions && sessions[id].status == Running) == CountedSet(sessions, retained, None);
    assert (set id | id in sessions && sessions[id].status == Running && sessions[id].scope == key)
        == CountedSet(sessions, retained, Some(key));
  }

  /** At most 32 sessions run, and at most 8 of any one scope. */
  lemma CapacityHolds(sessions: Sessions, retained: seq<string>, key: string)
    requires Sound(sessions, retained)
    ensures |set id | id in sessions && sessions[id].status == Running| <= 32
    ensures |set id | id in sessions && sessions[id].status == Running && sessions[id].scope == key| <= 8
  {
    RunningAre(sessions, retained, key);
    hide Count;
    assert Count(sessions, retained, Some(key)) <= MAX_PER_SCOPE;
  }
}

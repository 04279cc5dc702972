/** The session store of command-sessions.ts. Every method is one uninterrupted stretch of
    its code, so that calling them in any order gives every interleaving of processes,
    readers and stops. */
module CommandSessions {
  import opened Results
  import opened Ordering
  import opened SessionOutput
  import opened SessionTable

  const MAX_WAIT := 30000
  const MAX_TIMEOUT := 2147483647

  datatype Error = StoreStopped | WaitCancelled | ScopeRequired | BadWait | BadTimeout | AtCapacity
                 | UnknownSession | AlreadyReading

  datatype ReadResult =
    ReadResult(id: string, ok: bool, status: Status, stdout: string, stderr: string, truncated: bool)

  datatype Read = Rejected(error: Error) | Waiting(id: string) | Answered(result: ReadResult)

  /** How a worker's stream of events reports the end of its command. */
  datatype WorkerReport = Exited(ok: bool) | Aborted | TimeLimit | Broken

  function StatusOf(report: WorkerReport): (s: Status)
    ensures !s.Running?
  {
    match report
    case Exited(ok) => if ok then Completed else Failed
    case Aborted => Cancelled
    case TimeLimit => TimedOut
    case Broken => Failed
  }

  predicate ValidWait(waitMs: int) {
    0 <= waitMs <= MAX_WAIT
  }

  function Cleared(s: Session): Session {
    s.(stdout := "", stderr := "", truncated := false, reading := false)
  }

  function Emitting(s: Session, stream: Stream, text: string): Session {
    var all := (if stream.Stdout? then s.stdout else s.stderr) + text;
    var marked := s.(truncated := s.truncated || |all| > OUTPUT_LIMIT);
    if stream.Stdout? then marked.(stdout := LastN(all, OUTPUT_LIMIT)) else marked.(stderr := LastN(all, OUTPUT_LIMIT))
  }

  // ---------------------------------------------------------- buffers and history

  /** A session's buffers are what its history says. */
  ghost predicate Buffer(s: Session, log: seq<Event>, id: string) {
    && s.stdout == LastN(Unread(log, id, Stdout), OUTPUT_LIMIT)
    && s.stderr == LastN(Unread(log, id, Stderr), OUTPUT_LIMIT)
    && (s.truncated <==> Overflowed(log, id))
  }

  ghost predicate Buffered(sessions: Sessions, log: seq<Event>) {
    && (forall id :: id in sessions ==> Buffer(sessions[id], log, id))
    && (forall e :: e in log ==> e.id in sessions)
  }

  lemma BufferEmitting(s: Session, log: seq<Event>, id: string, stream: Stream, text: string)
    requires Buffer(s, log, id)
    ensures Buffer(Emitting(s, stream, text), log + [Emitted(id, stream, text)], id)
  {
    UnreadSnoc(log, Emitted(id, stream, text), id, Stdout);
    UnreadSnoc(log, Emitted(id, stream, text), id, Stderr);
    TailOfTail(Unread(log, id, stream), text);
    hide Unread, LastN;
  }

  lemma BufferCleared(s: Session, log: seq<Event>, id: string)
    ensures Buffer(Cleared(s), log + [ReadDone(id)], id)
  {
    UnreadSnoc(log, ReadDone(id), id, Stdout);
    UnreadSnoc(log, ReadDone(id), id, Stderr);
  }

  /** Events of one session leave the others alone. */
  lemma BufferOther(s: Session, log: seq<Event>, id: string, e: Event)
    requires e.id != id
    ensures Buffer(s, log + [e], id) <==> Buffer(s, log, id)
  {
    UnreadSnoc(log, e, id, Stdout);
    UnreadSnoc(log, e, id, Stderr);
  }

  lemma BufferedStep(sessions: Sessions, log: seq<Event>, e: Event, after: Session)
    requires Buffered(sessions, log) && e.id in sessions && Buffer(after, log + [e], e.id)
    ensures Buffered(sessions[e.id := after], log + [e])
  {
    var next := sessions[e.id := after];
    forall id | id in next ensures Buffer(next[id], log + [e], id) {
      if id != e.id { BufferOther(sessions[id], log, id, e); }
    }
    hide Buffer;
  }

  lemma BufferOf(sessions: Sessions, log: seq<Event>, id: string)
    requires Buffered(sessions, log) && id in sessions
    ensures Buffer(sessions[id], log, id)
  {
  }

  lemma {:induction false} SilentSession(log: seq<Event>, id: string)
    requires forall e :: e in log ==> e.id != id
    ensures Unread(log, id, Stdout) == "" && Unread(log, id, Stderr) == ""
  {
    if log != [] {
      SilentSession(log[..|log| - 1], id);
      assert log[|log| - 1] in log;
    }
  }

  lemma EmittingContinues(s: Session, stream: Stream, text: string)
    requires s.ended ==> !s.status.Running?
    ensures Continues(s, Emitting(s, stream, text))
  {
  }

  // ----------------------------------------------------------------------- the store

  class CommandSessionStore {
    /** Every record ever made; the map of the source is `retained`, in insertion order. */
    var sessions: Sessions
    var retained: seq<string>
    var closed: bool
    /** Sessions whose controller has been aborted: their worker sees the signal. */
    var aborted: set<string>
    ghost var log: seq<Event>

    ghost predicate Valid()
      reads this
    {
      Sound(sessions, retained) && Buffered(sessions, log)
    }

    ghost predicate Untouched(sessions: Sessions, retained: seq<string>, closed: bool, log: seq<Event>)
      reads this
    {
      this.sessions == sessions && this.retained == retained && this.closed == closed && this.log == log
    }

    constructor ()
      ensures Valid() && sessions == map[] && retained == [] && !closed && aborted == {} && log == []
    {
      sessions, retained, closed, aborted, log := map[], [], false, {}, [];
    }

    /** `prune`: idle ended sessions go, oldest first, while more than 128 remain. */
    method Prune()
      requires Valid()
      modifies `retained
      ensures Valid()
      ensures retained == Pruned(sessions, old(retained), Excess(old(retained)))
      ensures forall id :: id in old(retained) && (sessions[id].status == Running || sessions[id].reading) ==>
                id in retained
      ensures |retained| > 128 ==>
                forall id :: id in retained ==> sessions[id].status == Running || sessions[id].reading
      ensures retained != old(retained) ==> 128 <= |retained| < |old(retained)|
    {
      SoundAfterPrune(sessions, retained, Excess(retained));
      PrunedKeeps(sessions, retained, Excess(retained));
      PrunedLength(sessions, retained, Excess(retained));
      BusyOnly(sessions, retained);
      hide Sound, Buffered, Pruned;
      retained := PrunedList(sessions, retained);
    }

    /** The deleting loop of `prune`. */
    static method PrunedList(sessions: Sessions, ids: seq<string>) returns (kept: seq<string>)
      requires Known(sessions, ids)
      ensures kept == Pruned(sessions, ids, Excess(ids))
    {
      hide Pruned;
      kept := [];
      var i, size := 0, |ids|;
      while i < |ids| && size > MAX_RETAINED
        invariant 0 <= i <= |ids|
        invariant Pruned(sessions, ids, Excess(ids)) ==
                  kept + Pruned(sessions, ids[i..], if size > MAX_RETAINED then size - MAX_RETAINED else 0)
      {
        PrunedRound(sessions, ids, i, size - MAX_RETAINED);
        if sessions[ids[i]].Busy() {
          ConcatAssociative(kept, [ids[i]], Pruned(sessions, ids[i + 1..], size - MAX_RETAINED));
          kept := kept + [ids[i]];
        } else {
          size := size - 1;
        }
        i := i + 1;
      }
      NothingPruned(sessions, ids[i..], if size > MAX_RETAINED then size - MAX_RETAINED else 0);
      kept := kept + ids[i..];
    }

    /** The part of `read` that answers: the buffers are handed over and emptied. */
    method FinishRead(id: string) returns (result: ReadResult)
      requires Valid() && id in sessions && sessions[id].reading
      modifies `sessions, `retained, `log
      ensures Valid() && log == old(log) + [ReadDone(id)]
      ensures Reports(result, id, old(sessions[id]).status, old(log))
      ensures sessions == old(sessions)[id := Cleared(old(sessions[id]))]
      ensures retained == Pruned(sessions, old(retained), Excess(old(retained)))
    {
      result := ResultOf(id);
      SoundAfterStep(sessions, retained, id, Cleared(sessions[id]));
      BufferCleared(sessions[id], log, id);
      BufferedStep(sessions, log, ReadDone(id), Cleared(sessions[id]));
      log := log + [ReadDone(id)];
      sessions := sessions[id := Cleared(sessions[id])];
      Prune();
    }

    /** `result` */
    method ResultOf(id: string) returns (result: ReadResult)
      requires Valid() && id in sessions
      ensures Reports(result, id, sessions[id].status, log)
    {
      var s := sessions[id];
      result := ReadResult(id, s.status.Running? || s.status.Completed?, s.status, s.stdout, s.stderr, s.truncated);
      assert Buffer(s, log, id);
    }

    /** A waiting read that is aborted: nothing is handed over, nothing is lost. */
    method CancelRead(id: string)
      requires Valid() && id in sessions && sessions[id].reading
      modifies `sessions, `retained
      ensures Valid()
      ensures sessions == old(sessions)[id := old(sessions[id]).(reading := false)]
      ensures retained == Pruned(sessions, old(retained), Excess(old(retained)))
    {
      var s := sessions[id].(reading := false);
      SoundAfterStep(sessions, retained, id, s);
      sessions := sessions[id := s];
      Prune();
    }

    /** `get` */
    function Find(key: string, id: string): (found: bool)
      requires Known(sessions, retained)
      reads this
    {
      id in retained && sessions[id].scope == key
    }

    /** Why `get` throws. A scope without thread or workspace has no key. */
    function GetRefusal(key: Option<string>, id: string): Option<Error>
      requires Known(sessions, retained)
      reads this
    {
      if id !in retained then Some(UnknownSession)
      else if key.None? then Some(ScopeRequired)
      else if !Find(key.value, id) then Some(UnknownSession)
      else None
    }

    /** Why a read is refused, in the order of the source's checks. */
    function ReadRefusal(key: Option<string>, id: string, waitMs: int, cancelled: bool): Option<Error>
      requires Known(sessions, retained)
      reads this
    {
      if !ValidWait(waitMs) then Some(BadWait)
      else if cancelled then Some(WaitCancelled)
      else if GetRefusal(key, id).Some? then GetRefusal(key, id)
      else if sessions[id].reading then Some(AlreadyReading)
      else None
    }

    /** `read`, up to its answer or its wait. */
    method BeginRead(key: Option<string>, id: string, waitMs: int, cancelled: bool) returns (r: Read)
      requires Valid()
      modifies `sessions, `retained, `log
      ensures Valid()
      ensures var refusal := old(ReadRefusal(key, id, waitMs, cancelled));
              (refusal.Some? <==> r.Rejected?) && (refusal.Some? ==> r.error == refusal.value)
      ensures waitMs < 0 || waitMs > 30000 ==> r == Rejected(BadWait)
      ensures !r.Rejected? <==>
                && 0 <= waitMs <= 30000 && !cancelled && id in old(retained)
                && key == Some(old(sessions[id]).scope) && !old(sessions[id]).reading
      ensures r.Rejected? ==> Untouched(old(sessions), old(retained), old(closed), old(log))
      ensures !r.Rejected? ==> (r.Waiting? <==> old(sessions[id]).status.Running? && waitMs > 0)
      ensures r.Waiting? ==>
                r.id == id && Untouched(old(sessions)[id := old(sessions[id]).(reading := true)], old(retained),
                                        old(closed), old(log))
      ensures r.Answered? ==>
                && Reports(r.result, id, old(sessions[id]).status, old(log)) && log == old(log) + [ReadDone(id)]
                && sessions == old(sessions)[id := Cleared(old(sessions[id]))]
                && retained == Pruned(sessions, old(retained), Excess(old(retained)))
    {
      if !ValidWait(waitMs) { return Rejected(BadWait); }
      if cancelled { return Rejected(WaitCancelled); }
      if id !in retained { return Rejected(UnknownSession); }
      if key.None? { return Rejected(ScopeRequired); }
      if !Find(key.value, id) { return Rejected(UnknownSession); }
      if sessions[id].reading { return Rejected(AlreadyReading); }
      hide Sound, Buffered, Reports, Pruned, Cleared, ValidWait;
      r := Await(id, waitMs);
    }

    /** `read`, once all checks have passed. */
    method Await(id: string, waitMs: int) returns (r: Read)
      requires Valid() && id in sessions && !sessions[id].reading
      modifies `sessions, `retained, `log
      ensures Valid() && !r.Rejected? && (r.Waiting? <==> old(sessions[id]).status.Running? && waitMs > 0)
      ensures r.Waiting? ==>
                r.id == id && Untouched(old(sessions)[id := old(sessions[id]).(reading := true)], old(retained),
                                        old(closed), old(log))
      ensures r.Answered? ==>
                && Reports(r.result, id, old(sessions[id]).status, old(log)) && log == old(log) + [ReadDone(id)]
                && sessions == old(sessions)[id := Cleared(old(sessions[id]))]
                && retained == Pruned(sessions, old(retained), Excess(old(retained)))
    {
      hide Sound, Buffered, Reports, Pruned, Excess;
      ghost var before := sessions;
      MarkReading(id);
      if sessions[id].status.Running? && waitMs > 0 { return Waiting(id); }
      var result := FinishRead(id);
      assert sessions == before[id := Cleared(before[id])];
      r := Answered(result);
    }

    method MarkReading(id: string)
      requires Valid() && id in sessions
      modifies `sessions
      ensures Valid() && sessions == old(sessions)[id := old(sessions[id]).(reading := true)]
    {
      var s := sessions[id].(reading := true);
      SoundAfterStep(sessions, retained, id, s);
      sessions := sessions[id := s];
    }

    /** Output of a worker. */
    method Emit(id: string, stream: Stream, text: string)
      requires Valid() && id in sessions
      modifies `sessions, `log
      ensures Valid() && log == old(log) + [Emitted(id, stream, text)]
      ensures sessions == old(sessions)[id := Emitting(old(sessions[id]), stream, text)]
    {
      var s := Emitting(sessions[id], stream, text);
      EmittingContinues(sessions[id], stream, text);
      assert Buffer(sessions[id], log, id);
      hide Emitting, Sound, Buffered, Buffer, Continues;
      SoundAfterStep(sessions, retained, id, s);
      BufferEmitting(sessions[id], log, id, stream, text);
      BufferedStep(sessions, log, Emitted(id, stream, text), s);
      sessions, log := sessions[id := s], log + [Emitted(id, stream, text)];
    }

    /** The worker reports how the command ended; output may still follow. */
    method Report(id: string, report: WorkerReport)
      requires Valid() && id in sessions && !sessions[id].ended
      modifies `sessions
      ensures Valid() && sessions == old(sessions)[id := old(sessions[id]).(status := StatusOf(report))]
      ensures var status := sessions[id].status;
              && (status == Completed <==> report == Exited(true))
              && (status == Cancelled <==> report == Aborted)
              && (status == TimedOut <==> report == TimeLimit)
              && (status == Failed <==> report == Exited(false) || report == Broken)
    {
      var s := sessions[id].(status := StatusOf(report));
      SoundAfterStep(sessions, retained, id, s);
      sessions := sessions[id := s];
    }

    /** The end of `consume`, by exhaustion of the worker's events or by an exception. */
    method EndConsume(id: string, thrown: bool)
      requires Valid() && id in sessions && !sessions[id].ended
      modifies `sessions
      ensures Valid()
      ensures var was := old(sessions[id]);
              var status := if thrown || was.status.Running? then Failed else was.status;
              sessions == old(sessions)[id := was.(status := status, ended := true)]
    {
      var was := sessions[id];
      var s := was.(status := if thrown || was.status.Running? then Failed else was.status, ended := true);
      SoundAfterStep(sessions, retained, id, s);
      sessions := sessions[id := s];
    }

    /** What follows the end of `consume`: waiting reads may answer and old sessions go. */
    method Settle(id: string)
      requires Valid() && id in sessions && sessions[id].ended
      modifies `retained
      ensures Valid() && retained == Pruned(sessions, old(retained), Excess(old(retained)))
    {
      Prune();
    }

    /** `stop`, up to its wait for the command to end. */
    method BeginStop(key: Option<string>, id: string) returns (refusal: Option<Error>)
      requires Valid()
      modifies `aborted
      ensures Valid() && refusal == old(GetRefusal(key, id))
      ensures refusal.None? <==> id in retained && key == Some(sessions[id].scope)
      ensures aborted == if refusal.None? then old(aborted) + {id} else old(aborted)
    {
      if id !in retained { return Some(UnknownSession); }
      if key.None? { return Some(ScopeRequired); }
      if !Find(key.value, id) { return Some(UnknownSession); }
      aborted := aborted + {id};
      refusal := None;
    }

    /** The answer of `stop`, given once the command has ended: it takes nothing away, even
        when the session has been pruned meanwhile. */
    method StopResult(id: string) returns (result: ReadResult)
      requires Valid() && id in sessions && sessions[id].ended
      ensures Reports(result, id, sessions[id].status, log) && !result.status.Running?
    {
      result := ResultOf(id);
    }

    /** `stopAll`, up to its wait for the commands to end. */
    method BeginStopAll()
      requires Valid()
      modifies `closed, `aborted
      ensures Valid() && closed
      ensures forall id :: id in aborted <==> id in old(aborted) || id in retained
    {
      closed, aborted := true, aborted + set id | id in retained;
    }

    method FinishStopAll()
      requires Valid() && closed && forall id :: id in retained ==> sessions[id].ended
      modifies `retained
      ensures Valid() && retained == [] && forall id :: id in sessions ==> !sessions[id].status.Running?
    {
      retained := [];
    }

    /** `Array.prototype.find` over the retained sessions. */
    method FindOwner(key: string, runId: string, callId: string) returns (r: Option<string>)
      requires Valid()
      ensures r.Some? ==> r.value in retained && sessions[r.value].OwnedBy(key, runId, callId)
      ensures r.None? <==> Unowned(key, runId, callId)
    {
      for i := 0 to |retained|
        invariant forall k :: 0 <= k < i ==> !sessions[retained[k]].OwnedBy(key, runId, callId)
      {
        if sessions[retained[i]].OwnedBy(key, runId, callId) { return Some(retained[i]); }
      }
      r := None;
    }

    /** No retained session has this owner. */
    ghost predicate Unowned(key: string, runId: string, callId: string)
      requires Known(sessions, retained)
      reads this
    {
      forall id :: id in retained ==>
        !(sessions[id].scope == key && sessions[id].runId == runId && sessions[id].callId == callId)
    }

    /** Why a start is refused before any session is looked at. */
    function StartRefusal(key: Option<string>, waitMs: int, timeoutMs: Option<int>, cancelled: bool): Option<Error>
      reads this
    {
      if closed then Some(StoreStopped)
      else if cancelled then Some(WaitCancelled)
      else if key.None? then Some(ScopeRequired)
      else if !ValidWait(waitMs) then Some(BadWait)
      else if timeoutMs.Some? && !(1 <= timeoutMs.value <= MAX_TIMEOUT) then Some(BadTimeout)
      else None
    }

    ghost predicate Full(key: string)
      requires Known(sessions, retained)
      reads this
    {
      Count(sessions, retained, None) >= MAX_RUNNING || Count(sessions, retained, Some(key)) >= MAX_PER_SCOPE
    }

    /** There is no room: 32 sessions run, or 8 of this scope. */
    lemma FullExactly(key: string)
      requires Valid()
      ensures Full(key) <==>
              || |set id | id in sessions && sessions[id].status == Running| >= 32
              || |set id | id in sessions && sessions[id].status == Running && sessions[id].scope == key| >= 8
    {
      RunningAre(sessions, retained, key);
      hide Buffered, Count;
    }

    /** `start`: `id` is the fresh random identifier, and `unstartable` says that creating
        the worker throws, which ends the session at once. A retried call of the same owner
        reads the session it already has. */
    method Start(key: Option<string>, runId: string, callId: string, waitMs: int, timeoutMs: Option<int>,
                 cancelled: bool, id: string, unstartable: bool)
        returns (r: Read)
      requires Valid() && id !in sessions
      modifies `sessions, `retained, `log
      ensures Valid()
      ensures r.Rejected? ==> Untouched(old(sessions), old(retained), old(closed), old(log))
      ensures var refusal := old(StartRefusal(key, waitMs, timeoutMs, cancelled));
              refusal.Some? ==> r == Rejected(refusal.value)
      ensures old(StartRefusal(key, waitMs, timeoutMs, cancelled)).None? <==>
                !old(closed) && !cancelled && key.Some? && 0 <= waitMs <= 30000
                && (timeoutMs.Some? ==> 1 <= timeoutMs.value <= 2147483647)
      ensures id in sessions <==>
              && old(StartRefusal(key, waitMs, timeoutMs, cancelled)).None?
              && old(Unowned(key.value, runId, callId)) && !old(Full(key.value))
      ensures r == Rejected(AtCapacity) <==>
              && old(StartRefusal(key, waitMs, timeoutMs, cancelled)).None?
              && old(Unowned(key.value, runId, callId)) && old(Full(key.value))
      ensures id in sessions ==>
                && sessions.Keys == old(sessions.Keys) + {id} && sessions[id].OwnedBy(key.value, runId, callId)
                && !r.Rejected? && ResultId(r) == id
                && (forall other :: other in old(sessions) ==> sessions[other] == old(sessions[other]))
      ensures id in sessions ==>
                if unstartable || waitMs == 0 then
                  && r == Answered(ReadResult(id, !unstartable, if unstartable then Failed else Running, "", "", false))
                  && sessions[id] == Session(key.value, runId, callId, if unstartable then Failed else Running, "", "",
                                             false, false, unstartable)
                  && log == old(log) + [ReadDone(id)]
                else
                  && r == Waiting(id) && retained == old(retained) + [id] && log == old(log)
                  && sessions[id] == Session(key.value, runId, callId, Running, "", "", false, true, false)
      ensures id !in sessions && !r.Rejected? ==>
                var existing := ResultId(r);
                && existing in old(retained) && old(sessions)[existing].OwnedBy(key.value, runId, callId)
                && (r.Waiting? <==> old(sessions)[existing].status.Running? && waitMs > 0)
    {
      if closed { return Rejected(StoreStopped); }
      if cancelled { return Rejected(WaitCancelled); }
      if key.None? { return Rejected(ScopeRequired); }
      if !ValidWait(waitMs) { return Rejected(BadWait); }
      if timeoutMs.Some? && !(1 <= timeoutMs.value <= MAX_TIMEOUT) { return Rejected(BadTimeout); }
      var existing := FindOwner(key.value, runId, callId);
      if existing.Some? {
        assert existing.value in sessions;
        hide Sound, Buffered, Reports, Pruned, Unowned;
        r := BeginRead(key, existing.value, waitMs, false);
        return;
      }
      if Count(sessions, retained, None) >= MAX_RUNNING || Count(sessions, retained, Some(key.value)) >= MAX_PER_SCOPE {
        return Rejected(AtCapacity);
      }
      var status := if unstartable then Failed else Running;
      var s := Session(key.value, runId, callId, status, "", "", false, false, unstartable);
      r := Launch(id, s, waitMs);
    }

    /** The end of `start`: a new session is entered and read. */
    method Launch(id: string, s: Session, waitMs: int) returns (r: Read)
      requires Valid() && id !in sessions && ValidWait(waitMs) && Unowned(s.scope, s.runId, s.callId)
      requires !Full(s.scope) && s.stdout == s.stderr == "" && !s.truncated && !s.reading
      requires s.ended ==> !s.status.Running?
      modifies `sessions, `retained, `log
      ensures Valid() && sessions.Keys == old(sessions.Keys) + {id}
      ensures id in sessions && sessions[id].OwnedBy(s.scope, s.runId, s.callId) && !r.Rejected? && ResultId(r) == id
      ensures forall other :: other in old(sessions) ==> sessions[other] == old(sessions[other])
      ensures if s.status.Running? && waitMs > 0 then
                && r == Waiting(id) && sessions[id] == s.(reading := true)
                && retained == old(retained) + [id] && log == old(log)
              else
                && r == Answered(ReadResult(id, s.status.Running? || s.status.Completed?, s.status, "", "", false))
                && sessions[id] == s && log == old(log) + [ReadDone(id)]
    {
      hide Sound, Pruned, Excess, Count, Unread, Overflowed, Full, Unowned, Buffer, Buffered;
      Insert(id, s);
      ghost var entered := sessions;
      assert Buffer(s, log, id) by { BufferOf(sessions, log, id); }
      r := Await(id, waitMs);
      assert sessions == entered[id := sessions[id]] && sessions[id].OwnedBy(s.scope, s.runId, s.callId);
      if r.Answered? { NothingReported(r.result, id, s, old(log)); }
    }

    method Insert(id: string, s: Session)
      requires Valid() && id !in sessions && (s.ended ==> !s.status.Running?)
      requires Unowned(s.scope, s.runId, s.callId) && !Full(s.scope)
      requires s.stdout == s.stderr == "" && !s.truncated
      modifies `sessions, `retained
      ensures Valid() && sessions == old(sessions)[id := s] && retained == old(retained) + [id]
    {
      SoundAfterStart(sessions, retained, id, s);
      SilentSession(log, id);
      sessions, retained := sessions[id := s], retained + [id];
    }
  }

  function ResultId(r: Read): string
    requires !r.Rejected?
  {
    if r.Waiting? then r.id else r.result.id
  }

  /** A result shows, for each stream, the last 65536 characters emitted since the last
      completed read, and says whether either stream emitted more than that. */
  ghost predicate Reports(result: ReadResult, id: string, status: Status, log: seq<Event>) {
    && result.id == id && result.status == status && (result.ok <==> status.Running? || status.Completed?)
    && result.stdout == LastN(Unread(log, id, Stdout), 65536)
    && result.stderr == LastN(Unread(log, id, Stderr), 65536)
    && (result.truncated <==> Overflowed(log, id))
  }

  /** What a session without output reports. */
  lemma NothingReported(result: ReadResult, id: string, s: Session, log: seq<Event>)
    requires Reports(result, id, s.status, log) && Buffer(s, log, id) && s.stdout == s.stderr == "" && !s.truncated
    ensures result == ReadResult(id, s.status.Running? || s.status.Completed?, s.status, "", "", false)
  {
    hide Unread, Overflowed;
  }

  /** When pruning leaves too many sessions, all of them are busy. */
  lemma BusyOnly(sessions: Sessions, ids: seq<string>)
    requires Known(sessions, ids)
    ensures var kept := Pruned(sessions, ids, Excess(ids));
            |kept| > MAX_RETAINED ==> forall id :: id in kept ==> id in sessions && sessions[id].Busy()
  {
    PrunedIs(sessions, ids, Excess(ids));
    BusyOfIsBusy(sessions, ids);
  }

  lemma {:induction false} BusyOfIsBusy(sessions: Sessions, ids: seq<string>)
    requires Known(sessions, ids)
    ensures forall id :: id in BusyOf(sessions, ids) ==> id in sessions && sessions[id].Busy()
  {
    if ids != [] { BusyOfIsBusy(sessions, ids[1..]); }
  }
}

/**
 What a pass means for the allocations: the ledger's committed amounts only grow, a finished replay
 announces every allocation with a committed note again, and commits what its final deposits add up to.
 */
module CurvyDelivery {
  import opened Common
  import opened CurvyMachine
  import opened CurvyPass

  type NoteKey = (AllocationId, NoteId)

  // ---------------------------------------------------------------------------------------------
  // The committed amount of an allocation
  // ---------------------------------------------------------------------------------------------

  ghost function Total(owned: map<NoteKey, OwnedNote>, keys: set<NoteKey>): nat
    requires keys <= owned.Keys
  {
    if keys == {} then 0
    else
      var key :| key in keys;
      owned[key].amount + Total(owned, keys - {key})
  }

  /** Any key can be taken out first. */
  lemma {:induction false} TotalTakes(owned: map<NoteKey, OwnedNote>, keys: set<NoteKey>, key: NoteKey)
    requires keys <= owned.Keys && key in keys
    ensures Total(owned, keys) == owned[key].amount + Total(owned, keys - {key})
    decreases |keys|
  {
    var first :| first in keys && Total(owned, keys) == owned[first].amount + Total(owned, keys - {first});
    if first != key {
      TotalTakes(owned, keys - {first}, key);
      TotalTakes(owned, keys - {key}, first);
      assert keys - {first} - {key} == keys - {key} - {first};
    }
  }

  /** More notes, none of them with another amount, total no less. */
  lemma {:induction false} TotalGrows(owned: map<NoteKey, OwnedNote>, keys: set<NoteKey>,
                                      owned': map<NoteKey, OwnedNote>, keys': set<NoteKey>)
    requires keys <= owned.Keys && keys' <= owned'.Keys && keys <= keys'
    requires forall key :: key in keys ==> owned'[key].amount == owned[key].amount
    ensures Total(owned, keys) <= Total(owned', keys')
    ensures keys == keys' ==> Total(owned, keys) == Total(owned', keys')
    decreases |keys|
  {
    if keys != {} {
      var key :| key in keys;
      TotalTakes(owned, keys, key);
      TotalTakes(owned', keys', key);
      TotalGrows(owned, keys - {key}, owned', keys' - {key});
    }
  }

  function CommittedKeys(l: Ledger, id: AllocationId): set<NoteKey> {
    set key | key in l.owned && key.0 == id && l.owned[key].committed
  }

  /** What the durable state answers for an allocation. */
  ghost function CommittedAmount(l: Ledger, id: AllocationId): nat {
    Total(l.owned, CommittedKeys(l, id))
  }

  /** The allocation a step records a completion for, and so announces. */
  function AnnouncedBy(l: Ledger, op: Op): Option<AllocationId> {
    if op.Complete? && !op.event.malformed then KnownOwner(l, op.event.note) else None
  }

  lemma {:induction false} KeysGrow(l: Ledger, op: Op, id: AllocationId)
    ensures CommittedKeys(l, id) <= CommittedKeys(Apply(l, op), id)
    ensures AnnouncedBy(l, op) != Some(id) ==> CommittedKeys(Apply(l, op), id) == CommittedKeys(l, id)
    ensures forall key :: key in CommittedKeys(l, id) ==> Apply(l, op).owned[key] == l.owned[key]
  {}

  /** Every step leaves an allocation's committed amount as large as it was, and the amounts of those it
      does not announce as they were. */
  lemma {:induction false} AmountGrows(l: Ledger, op: Op, id: AllocationId)
    ensures CommittedAmount(l, id) <= CommittedAmount(Apply(l, op), id)
    ensures AnnouncedBy(l, op) != Some(id) ==> CommittedAmount(l, id) == CommittedAmount(Apply(l, op), id)
  {
    KeysGrow(l, op, id);
    hide Apply, AnnouncedBy, Total;
    TotalGrows(l.owned, CommittedKeys(l, id), Apply(l, op).owned, CommittedKeys(Apply(l, op), id));
  }

  /** The committed amount never falls over a whole trace. */
  lemma {:induction false} AmountNeverFalls(l: Ledger, trace: seq<Op>, id: AllocationId)
    ensures CommittedAmount(l, id) <= CommittedAmount(ApplyAll(l, trace), id)
  {
    hide Apply, CommittedAmount;
    if trace != [] {
      var n := |trace| - 1;
      AmountNeverFalls(l, trace[..n], id);
      AmountGrows(ApplyAll(l, trace[..n]), trace[n], id);
    }
  }

  // ---------------------------------------------------------------------------------------------
  // A replay announces again
  // ---------------------------------------------------------------------------------------------

  /** The allocations the trace announces. */
  function Announced(l: Ledger, trace: seq<Op>): set<AllocationId> {
    if trace == [] then {}
    else
      var n := |trace| - 1;
      var last := AnnouncedBy(ApplyAll(l, trace[..n]), trace[n]);
      Announced(l, trace[..n]) + if last.Some? then {last.value} else {}
  }

  lemma {:induction false} AnnouncedAtStep(l: Ledger, trace: seq<Op>, q: nat, id: AllocationId)
    requires q < |trace| && AnnouncedBy(ApplyAll(l, trace[..q]), trace[q]) == Some(id)
    ensures id in Announced(l, trace)
    decreases |trace|
  {
    hide AnnouncedBy, ApplyAll;
    var n := |trace| - 1;
    if q < n {
      assert trace[..n][..q] == trace[..q];
      AnnouncedAtStep(l, trace[..n], q, id);
    }
  }

  /** No candidate is opened by another allocation's secret than the one its note is recorded for. */
  ghost predicate OwnersAgree(l: Ledger, trace: seq<Op>) {
    forall i :: 0 <= i < |trace| && trace[i].Scan? && trace[i].candidate.owner.Some?
                && trace[i].candidate.note in l.sessions ==>
                  trace[i].candidate.owner == Some(l.sessions[trace[i].candidate.note])
  }

  lemma {:induction false} SessionStays(l: Ledger, trace: seq<Op>, note: NoteId)
    requires OwnersAgree(l, trace) && note in l.sessions
    ensures note in ApplyAll(l, trace).sessions && ApplyAll(l, trace).sessions[note] == l.sessions[note]
  {
    if trace != [] {
      var n := |trace| - 1;
      assert OwnersAgree(l, trace[..n]);
      SessionStays(l, trace[..n], note);
    }
  }

  /** What is committed belongs to the allocation its note is recorded for, and its completion is among
      `finals`, the final ones the index serves: the index only grows, and what is final stays. */
  ghost predicate CommittedOnTheIndex(l: Ledger, finals: seq<CommittedNote>) {
    forall id, note :: Committed(l, id, note) ==>
      && note in l.sessions && l.sessions[note] == id
      && CompletedNote(finals, note)
  }

  predicate CompletedNote(events: seq<CommittedNote>, note: NoteId) {
    exists i :: 0 <= i < |events| && events[i].note == note && !events[i].malformed
  }

  /** A completed note that was committed before is found again with the owner it had. */
  lemma {:induction false} OwnerIsFoundAgain(l: Ledger, trace: seq<Op>, id: AllocationId, note: NoteId)
    requires Committed(l, id, note) && note in l.sessions && l.sessions[note] == id && OwnersAgree(l, trace)
    ensures KnownOwner(ApplyAll(l, trace), note) == Some(id)
  {
    SessionStays(l, trace, note);
    CommittedStays(l, trace, id, note);
  }

  /** A replay that finishes announces every allocation with a committed note again, whatever pages it
      was served in and however many of its completions were recorded before. */
  lemma {:induction false} ReplayAnnouncesAgain(finals: seq<CommittedNote>, l: Ledger, pendingTrace: seq<Op>,
                                                committedTrace: seq<Op>, id: AllocationId, note: NoteId)
    requires Completes(committedTrace, finals) && CommittedOnTheIndex(l, finals)
    requires OwnersAgree(l, pendingTrace + committedTrace) && Committed(l, id, note)
    ensures id in Announced(l, pendingTrace + committedTrace)
  {
    var trace := pendingTrace + committedTrace;
    assert CompletedNote(finals, note);
    var i :| 0 <= i < |finals| && finals[i].note == note && !finals[i].malformed;
    hide CommittedOnTheIndex;
    var q := CompletedAt(committedTrace, finals[i]);
    hide ApplyAll, CompletedIn, Completes, Announced, Committed;
    var k := |pendingTrace| + q;
    assert trace[k] == committedTrace[q];
    assert OwnersAgree(l, trace[..k]);
    OwnerIsFoundAgain(l, trace[..k], id, note);
    AnnouncedAtStep(l, trace, k, id);
  }

  predicate CompletesOn(op: Op, events: seq<CommittedNote>) { op.Complete? ==> op.event in events }

  lemma {:induction false} StepStaysOnTheIndex(finals: seq<CommittedNote>, l: Ledger, op: Op)
    requires CommittedOnTheIndex(l, finals) && CompletesOn(op, finals)
    requires op.Scan? && op.candidate.owner.Some? && op.candidate.note in l.sessions ==>
               op.candidate.owner == Some(l.sessions[op.candidate.note])
    ensures CommittedOnTheIndex(Apply(l, op), finals)
  {
    var l' := Apply(l, op);
    forall id, note | Committed(l', id, note)
      ensures note in l'.sessions && l'.sessions[note] == id && CompletedNote(finals, note)
    {
      if Committed(l, id, note) {
        assert CompletedNote(finals, note);
      } else {
        assert op.Complete? && op.event.note == note && !op.event.malformed;
        var i :| 0 <= i < |finals| && finals[i] == op.event;
        assert finals[i].note == note;
      }
    }
  }

  /** A note's recorded allocation is the one it was recorded for before, or the owner of a candidate
      scanned. */
  lemma {:induction false} SessionComesFrom(l: Ledger, trace: seq<Op>, note: NoteId)
    requires note in ApplyAll(l, trace).sessions
    ensures var owner := ApplyAll(l, trace).sessions[note];
            || (note in l.sessions && owner == l.sessions[note])
            || exists i :: 0 <= i < |trace| && trace[i].Scan? && trace[i].candidate.note == note
                           && trace[i].candidate.owner == Some(owner)
  {
    if trace != [] {
      var n := |trace| - 1;
      var before, owner := ApplyAll(l, trace[..n]), ApplyAll(l, trace).sessions[note];
      if note in before.sessions && before.sessions[note] == owner {
        SessionComesFrom(l, trace[..n], note);
        if !(note in l.sessions && owner == l.sessions[note]) {
          var i :| 0 <= i < n && trace[..n][i].Scan? && trace[..n][i].candidate.note == note
                   && trace[..n][i].candidate.owner == Some(owner);
          assert trace[i] == trace[..n][i];
        }
      } else {
        assert trace[n].Scan? && trace[n].candidate.note == note && trace[n].candidate.owner == Some(owner);
      }
    }
  }

  /** The next candidate's owner agrees with the ledger the trace has left so far. */
  lemma {:induction false} OwnerAgreesSoFar(l: Ledger, trace: seq<Op>, n: nat)
    requires OwnersAgree(l, trace) && OneOwner(trace) && n < |trace|
    requires trace[n].Scan? && trace[n].candidate.owner.Some?
    requires trace[n].candidate.note in ApplyAll(l, trace[..n]).sessions
    ensures trace[n].candidate.owner == Some(ApplyAll(l, trace[..n]).sessions[trace[n].candidate.note])
  {
    var note := trace[n].candidate.note;
    SessionComesFrom(l, trace[..n], note);
    var owner := ApplyAll(l, trace[..n]).sessions[note];
    hide ApplyAll;
    if !(note in l.sessions && owner == l.sessions[note]) {
      var i :| 0 <= i < n && trace[..n][i].Scan? && trace[..n][i].candidate.note == note
               && trace[..n][i].candidate.owner == Some(owner);
      assert trace[i] == trace[..n][i];
    }
  }

  lemma {:induction false} CompletedIsCompletedIn(trace: seq<Op>, q: nat)
    requires q < |trace| && trace[q].Complete?
    ensures trace[q].event in CompletedIn(trace)
  {
    var n := |trace| - 1;
    if q < n {
      CompletedIsCompletedIn(trace[..n], q);
    }
  }

  lemma {:induction false} CompletedIsFinal(trace: seq<Op>, work: seq<CommittedNote>, finalizedThrough: nat, q: nat)
    returns (i: nat)
    requires q < |trace| && trace[q].Complete? && CompletesAStart(trace, work, finalizedThrough)
    ensures i < |work| && work[i] == trace[q].event && work[i].block <= finalizedThrough
  {
    var m: nat :| CompletedRun(trace, work, m, finalizedThrough);
    hide CompletedIn, CandidateFirst;
    CompletedIsCompletedIn(trace, q);
    assert trace[q].event in work[..m];
    i :| i < m && work[i] == trace[q].event;
  }

  /** A pass, finished or not, records only final completions the index serves. */
  lemma {:induction false} PassCompletesOnTheIndex(index: Index, finalizedThrough: nat,
                                                   cursor: Option<nat>, trace: seq<Op>, q: nat)
    requires ValidIndex(index) && q < |trace|
    requires CompletesAStart(trace, CommittedWork(index, cursor), finalizedThrough)
    ensures CompletesOn(trace[q], FinalPrefix(index.committed, finalizedThrough))
  {
    hide FinalPrefix, CompletesAStart, After;
    if trace[q].Complete? {
      var i := CompletedIsFinal(trace, CommittedWork(index, cursor), finalizedThrough, q);
      var k := AfterIsASuffix(index.committed, COMMITTED_AT, cursor);
      assert index.committed[k + i] == CommittedWork(index, cursor)[i];
      FinalEventsAreInThePrefix(index.committed, finalizedThrough, k + i);
    }
  }

  lemma {:induction false} MoreIsFinalLater(earlier: seq<CommittedNote>, finals: seq<CommittedNote>, l: Ledger)
    requires CommittedOnTheIndex(l, earlier) && earlier <= finals
    ensures CommittedOnTheIndex(l, finals)
  {
    forall id, note | Committed(l, id, note) ensures CompletedNote(finals, note) {
      var i :| 0 <= i < |earlier| && earlier[i].note == note && !earlier[i].malformed;
      assert finals[i] == earlier[i];
    }
  }

  lemma {:induction false} CommitsStayOnTheIndex(earlier: seq<CommittedNote>,
                                                 finals: seq<CommittedNote>, l: Ledger, trace: seq<Op>)
    requires CommittedOnTheIndex(l, earlier) && earlier <= finals && OwnersAgree(l, trace) && OneOwner(trace)
    requires forall i :: 0 <= i < |trace| ==> CompletesOn(trace[i], finals)
    ensures CommittedOnTheIndex(ApplyAll(l, trace), finals)
  {
    hide CommittedOnTheIndex, CompletesOn;
    if trace == [] {
      MoreIsFinalLater(earlier, finals, l);
    } else {
      var n := |trace| - 1;
      OneOwnerPrefix(trace, n);
      assert OwnersAgree(l, trace[..n]);
      CommitsStayOnTheIndex(earlier, finals, l, trace[..n]);
      if trace[n].Scan? && trace[n].candidate.owner.Some?
         && trace[n].candidate.note in ApplyAll(l, trace[..n]).sessions
      {
        OwnerAgreesSoFar(l, trace, n);
      }
      hide OwnersAgree, OneOwner;
      StepStaysOnTheIndex(finals, ApplyAll(l, trace[..n]), trace[n]);
    }
  }

  /** What `ReplayAnnouncesAgain` asks of the ledger holds from an empty one on: any pass, finished or
      not, over an index whose final completions have only grown keeps it. */
  lemma {:induction false} PassStaysOnTheIndex(earlier: seq<CommittedNote>, index: Index, finalizedThrough: nat,
                                               cursor: Option<nat>, l: Ledger, notes: seq<PendingNote>,
                                               pendingTrace: seq<Op>, committedTrace: seq<Op>)
    requires ValidIndex(index) && Judges(pendingTrace, notes)
    requires CompletesAStart(committedTrace, CommittedWork(index, cursor), finalizedThrough)
    requires CommittedOnTheIndex(l, earlier) && earlier <= FinalPrefix(index.committed, finalizedThrough)
    requires OwnersAgree(l, pendingTrace + committedTrace) && OneOwner(pendingTrace + committedTrace)
    ensures CommittedOnTheIndex(ApplyAll(l, pendingTrace + committedTrace),
                                FinalPrefix(index.committed, finalizedThrough))
  {
    var trace, finals := pendingTrace + committedTrace, FinalPrefix(index.committed, finalizedThrough);
    hide FinalPrefix, CompletesAStart, CommittedWork, ValidIndex, CommittedOnTheIndex, OwnersAgree, OneOwner, ApplyAll;
    forall i | 0 <= i < |trace| ensures CompletesOn(trace[i], finals) {
      if i >= |pendingTrace| {
        PassCompletesOnTheIndex(index, finalizedThrough, cursor, committedTrace, i - |pendingTrace|);
      }
    }
    CommitsStayOnTheIndex(earlier, finals, l, trace);
  }

  // ---------------------------------------------------------------------------------------------
  // Final deposits are committed
  // ---------------------------------------------------------------------------------------------

  function Deposited(notes: seq<PendingNote>): nat {
    if notes == [] then 0 else Deposited(notes[..|notes| - 1]) + notes[|notes| - 1].amount
  }

  /** What a pass was served: pending notes, completions, and up to where these are final. */
  datatype Seen = Seen(pending: seq<PendingNote>, committed: seq<CommittedNote>, finalizedThrough: nat)

  /** `n` is a deposit to `id` whose completion is final, served as pending or with that completion. */
  ghost predicate FinalDeposit(seen: Seen, id: AllocationId, n: PendingNote) {
    && n.owner == Some(id) && !n.malformed
    && exists e :: e in seen.committed && CompletesDeposit(seen, n, e)
  }

  predicate CompletesDeposit(seen: Seen, n: PendingNote, e: CommittedNote) {
    && e.note == n.note && !e.malformed && e.block <= seen.finalizedThrough
    && (n in seen.pending || e.scan == Some(n))
  }

  /** The trace is that of a finished replay over what was seen. */
  ghost predicate FinishedReplay(seen: Seen, pendingTrace: seq<Op>, committedTrace: seq<Op>) {
    && BlocksAscend(seen.committed) && Judges(pendingTrace, seen.pending)
    && Completes(committedTrace, FinalPrefix(seen.committed, seen.finalizedThrough))
  }

  /** A note's id commits to its amount: whatever is scanned or recorded as `n`'s note has its amount. */
  ghost predicate OneAmount(l: Ledger, trace: seq<Op>, id: AllocationId, n: PendingNote) {
    && ((id, n.note) in l.owned ==> l.owned[(id, n.note)].amount == n.amount)
    && forall i :: 0 <= i < |trace| && ScansItsNote(trace[i], id, n) ==> trace[i].candidate.amount == n.amount
  }

  predicate ScansItsNote(op: Op, id: AllocationId, n: PendingNote) {
    op.Scan? && op.candidate.note == n.note && op.candidate.owner == Some(id)
  }

  lemma {:induction false} AmountIsRecorded(l: Ledger, trace: seq<Op>, id: AllocationId, n: PendingNote)
    requires OneAmount(l, trace, id, n)
    ensures var owned := ApplyAll(l, trace).owned;
            (id, n.note) in owned ==> owned[(id, n.note)].amount == n.amount
  {
    if trace != [] {
      var m := |trace| - 1;
      assert OneAmount(l, trace[..m], id, n);
      AmountIsRecorded(l, trace[..m], id, n);
    }
  }

  ghost predicate DistinctNotes(notes: seq<PendingNote>) {
    forall i, j :: 0 <= i < j < |notes| ==> notes[i].note != notes[j].note
  }

  /** `n` is among these committed notes, with its amount. */
  predicate Counted(owned: map<NoteKey, OwnedNote>, keys: set<NoteKey>, id: AllocationId, n: PendingNote) {
    (id, n.note) in keys && (id, n.note) in owned && owned[(id, n.note)].amount == n.amount
  }

  lemma {:induction false} DepositsAddUp(owned: map<NoteKey, OwnedNote>, keys: set<NoteKey>,
                                         id: AllocationId, notes: seq<PendingNote>)
    requires keys <= owned.Keys && DistinctNotes(notes)
    requires forall i :: 0 <= i < |notes| ==> Counted(owned, keys, id, notes[i])
    ensures Deposited(notes) <= Total(owned, keys)
  {
    if notes != [] {
      var m := |notes| - 1;
      var key := (id, notes[m].note);
      assert Counted(owned, keys, id, notes[m]);
      TotalTakes(owned, keys, key);
      hide Total;
      forall i | 0 <= i < m ensures Counted(owned, keys - {key}, id, notes[..m][i]) {
        assert Counted(owned, keys, id, notes[i]) && notes[i].note != notes[m].note;
      }
      DepositsAddUp(owned, keys - {key}, id, notes[..m]);
    }
  }

  /** A replay that finished, with `id` watched throughout, has committed at least what its final deposits
      add up to. */
  lemma {:induction false} FinishedReplayCommitsTheSum(seen: Seen, l: Ledger, pendingTrace: seq<Op>,
                                                       committedTrace: seq<Op>, id: AllocationId,
                                                       deposits: seq<PendingNote>)
    requires FinishedReplay(seen, pendingTrace, committedTrace)
    requires OneOwner(pendingTrace + committedTrace) && WatchedThroughout(pendingTrace + committedTrace, id)
    requires DistinctNotes(deposits)
    requires forall i :: 0 <= i < |deposits| ==>
               FinalDeposit(seen, id, deposits[i]) && OneAmount(l, pendingTrace + committedTrace, id, deposits[i])
    ensures Deposited(deposits) <= CommittedAmount(ApplyAll(l, pendingTrace + committedTrace), id)
  {
    var trace := pendingTrace + committedTrace;
    var l' := ApplyAll(l, trace);
    hide FinalPrefix, Judges, Completes, OneOwner, WatchedThroughout, BlocksAscend, ApplyAll, OneAmount, Total;
    forall i | 0 <= i < |deposits| ensures Counted(l'.owned, CommittedKeys(l', id), id, deposits[i]) {
      var n := deposits[i];
      assert FinalDeposit(seen, id, n);
      var e :| e in seen.committed && CompletesDeposit(seen, n, e);
      FinishedReplayCommitsEveryDeposit(seen.pending, seen.committed, seen.finalizedThrough, l, pendingTrace,
                                        committedTrace, id, n, e);
      AmountIsRecorded(l, trace, id, n);
    }
    DepositsAddUp(l'.owned, CommittedKeys(l', id), id, deposits);
  }
}

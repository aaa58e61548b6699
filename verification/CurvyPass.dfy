/**
 Catching up with the Curvy index: paged traversal of pending and committed note events, the durable
 ledger they are written to, and what a pass that was allowed to finish has achieved.
 */
module CurvyPass {
  import opened Common
  import opened CurvyMachine

  datatype NoteId = NoteId(n: nat)

  /** A pending note. `at` is its place in the event order; `owner` the allocation whose scan secret
      opens it; a malformed one cannot be judged and is quarantined. */
  datatype PendingNote = PendingNote(at: nat, note: NoteId, owner: Option<AllocationId>, amount: nat, malformed: bool)

  /** A committed note. A source whose pending view can miss notes also serves what the detector scans. */
  datatype CommittedNote = CommittedNote(at: nat, block: nat, note: NoteId, malformed: bool, scan: Option<PendingNote>)

  /** What the index serves during a pass. A snapshot source returns all its pending notes at once. */
  datatype Index = Index(pending: seq<PendingNote>, snapshot: bool, committed: seq<CommittedNote>, head: nat,
      finality: nat)

  const PENDING_AT: PendingNote -> nat := (n: PendingNote) => n.at
  const COMMITTED_AT: CommittedNote -> nat := (n: CommittedNote) => n.at

  ghost predicate Ascending<T>(events: seq<T>, at: T -> nat) {
    forall i, j :: 0 <= i < j < |events| ==> at(events[i]) < at(events[j])
  }

  /** Events come oldest first. */
  ghost predicate ValidIndex(index: Index) {
    && Ascending(index.pending, PENDING_AT) && Ascending(index.committed, COMMITTED_AT)
    && BlocksAscend(index.committed)
  }

  ghost predicate BlocksAscend(events: seq<CommittedNote>) {
    forall i, j :: 0 <= i < j < |events| ==> events[i].block <= events[j].block
  }

  // ---------------------------------------------------------------------------------------------
  // Pages of an event stream
  // ---------------------------------------------------------------------------------------------

  /** The events strictly after a cursor. */
  function After<T>(events: seq<T>, at: T -> nat, cursor: Option<nat>): (r: seq<T>)
    ensures |r| <= |events|
  {
    if events == [] || cursor.None? || at(events[0]) > cursor.value then events else After(events[1..], at, cursor)
  }

  function Page<T>(events: seq<T>, at: T -> nat, cursor: Option<nat>, first: nat): seq<T> {
    var rest := After(events, at, cursor);
    rest[..Min(first, |rest|)]
  }

  lemma {:induction false} AscendingPair<T>(events: seq<T>, at: T -> nat, i: nat, j: nat)
    requires Ascending(events, at) && i <= j < |events|
    ensures at(events[i]) <= at(events[j]) && (i < j ==> at(events[i]) < at(events[j]))
  {}

  lemma {:induction false} AscendingTail<T>(events: seq<T>, at: T -> nat)
    requires Ascending(events, at) && events != []
    ensures Ascending(events[1..], at)
  {}

  /** An event the cursor has passed is skipped. */
  lemma {:induction false} AfterSkips<T>(events: seq<T>, at: T -> nat, cursor: nat)
    requires events != [] && at(events[0]) <= cursor
    ensures After(events, at, Some(cursor)) == After(events[1..], at, Some(cursor))
  {}

  lemma {:induction false} AfterStops<T>(events: seq<T>, at: T -> nat, cursor: nat)
    requires events == [] || cursor < at(events[0])
    ensures After(events, at, Some(cursor)) == events
  {}

  /** A cursor between two neighbours splits the events there. */
  lemma {:induction false} AfterSplit<T>(events: seq<T>, at: T -> nat, cursor: nat, m: nat)
    requires Ascending(events, at) && m <= |events|
    requires m > 0 ==> at(events[m - 1]) <= cursor
    requires m < |events| ==> cursor < at(events[m])
    ensures After(events, at, Some(cursor)) == events[m..]
    decreases m
  {
    hide After, Ascending;
    if m == 0 {
      AfterStops(events, at, cursor);
    } else {
      AscendingPair(events, at, 0, m - 1);
      AscendingTail(events, at);
      AfterSkips(events, at, cursor);
      var tail := events[1..];
      assert m > 1 ==> tail[m - 2] == events[m - 1];
      assert m < |events| ==> tail[m - 1] == events[m];
      AfterSplit(tail, at, cursor, m - 1);
      assert tail[m - 1..] == events[m..];
    }
  }

  lemma {:induction false} DropOneMore<T>(s: seq<T>, m: nat)
    requires m < |s|
    ensures s[1..][m..] == s[m + 1..]
  {}

  /** What is behind a cursor is the suffix of the stream that starts right after it. */
  lemma {:induction false} AfterIsASuffix<T>(events: seq<T>, at: T -> nat, cursor: Option<nat>) returns (m: nat)
    ensures m <= |events| && After(events, at, cursor) == events[m..]
    ensures m < |events| && cursor.Some? ==> cursor.value < at(events[m])
    ensures m > 0 ==> cursor.Some? && at(events[m - 1]) <= cursor.value
  {
    if events != [] && cursor.Some? && at(events[0]) <= cursor.value {
      AfterSkips(events, at, cursor.value);
      hide After;
      m := AfterIsASuffix(events[1..], at, cursor);
      DropOneMore(events, m);
      m := m + 1;
    } else {
      m := 0;
      DropNothing(events);
    }
  }

  /** A cursor lies between the first `k` events and the others. */
  predicate Fits<T>(events: seq<T>, at: T -> nat, k: nat, cursor: nat) {
    k <= |events| && (k > 0 ==> at(events[k - 1]) <= cursor) && (k < |events| ==> cursor < at(events[k]))
  }

  /** It leaves exactly those others if and only if it lies there. */
  lemma {:induction false} AfterFits<T>(events: seq<T>, at: T -> nat, k: nat, cursor: nat)
    requires Ascending(events, at) && k <= |events|
    ensures After(events, at, Some(cursor)) == events[k..] <==> Fits(events, at, k, cursor)
  {
    if Fits(events, at, k, cursor) {
      AfterSplit(events, at, cursor, k);
    } else {
      var m := AfterIsASuffix(events, at, Some(cursor));
      hide After, Ascending;
      assert |events[m..]| == |events| - m && |events[k..]| == |events| - k;
    }
  }

  /** What is appended to the stream comes after what a cursor leaves, if it leaves something. */
  lemma {:induction false} AfterGrows<T>(events: seq<T>, more: seq<T>, at: T -> nat, cursor: Option<nat>)
    requires After(events, at, cursor) != []
    ensures After(events + more, at, cursor) == After(events, at, cursor) + more
  {
    if events != [] && cursor.Some? && at(events[0]) <= cursor.value {
      AfterSkips(events, at, cursor.value);
      AfterSkips(events + more, at, cursor.value);
      assert (events + more)[1..] == events[1..] + more;
      hide After;
      AfterGrows(events[1..], more, at, cursor);
    }
  }

  lemma {:induction false} DropNothing<T>(s: seq<T>)
    ensures s[0..] == s
  {}

  /** Moving the cursor to an event served leaves exactly the events behind it. */
  lemma {:induction false} AfterEvent<T>(events: seq<T>, at: T -> nat, cursor: Option<nat>, i: nat)
    requires Ascending(events, at) && i < |After(events, at, cursor)|
    ensures After(events, at, Some(at(After(events, at, cursor)[i]))) == After(events, at, cursor)[i + 1..]
  {
    var m := AfterIsASuffix(events, at, cursor);
    hide After, Ascending;
    var k := m + i;
    assert events[m..][i] == events[k];
    if k + 1 < |events| {
      AscendingPair(events, at, k, k + 1);
    }
    AfterSplit(events, at, at(events[k]), k + 1);
    assert events[m..][i + 1..] == events[k + 1..];
  }

  // ---------------------------------------------------------------------------------------------
  // The durable ledger
  // ---------------------------------------------------------------------------------------------

  datatype OwnedNote = OwnedNote(amount: nat, committed: bool)

  datatype Ledger = Ledger(pendingCursor: Option<nat>, committedCursor: Option<nat>,
                           owned: map<(AllocationId, NoteId), OwnedNote>, sessions: map<NoteId, AllocationId>)

  /** One step of a pass: a candidate judged against the allocations watched just then, or a completion. */
  datatype Op = Scan(candidate: PendingNote, watched: set<AllocationId>) | Complete(event: CommittedNote)

  /** A note already recorded keeps its record, so recording it again never forgets its completion. */
  function RecordedOwned(l: Ledger, id: AllocationId, note: NoteId, amount: nat, at: nat): Ledger {
    l.(owned := if (id, note) in l.owned then l.owned else l.owned[(id, note) := OwnedNote(amount, false)],
       sessions := l.sessions[note := id],
       pendingCursor := Some(at))
  }

  function KnownOwner(l: Ledger, note: NoteId): Option<AllocationId> {
    if note in l.sessions && (l.sessions[note], note) in l.owned then Some(l.sessions[note]) else None
  }

  function RecordedCompletion(l: Ledger, note: NoteId, at: nat): Ledger {
    var owner := KnownOwner(l, note);
    l.(owned := if owner.None? then l.owned
                else l.owned[(owner.value, note) := l.owned[(owner.value, note)].(committed := true)],
       committedCursor := Some(at))
  }

  function Apply(l: Ledger, op: Op): Ledger {
    match op
    case Scan(c, watched) =>
      if !c.malformed && c.owner.Some? && c.owner.value in watched
      then RecordedOwned(l, c.owner.value, c.note, c.amount, c.at)
      else l.(pendingCursor := Some(c.at))
    case Complete(e) =>
      if e.malformed then l.(committedCursor := Some(e.at)) else RecordedCompletion(l, e.note, e.at)
  }

  function ApplyAll(l: Ledger, trace: seq<Op>): Ledger {
    if trace == [] then l else Apply(ApplyAll(l, trace[..|trace| - 1]), trace[|trace| - 1])
  }

  lemma {:induction false} ApplyAppend(l: Ledger, a: seq<Op>, b: seq<Op>)
    ensures ApplyAll(l, a + b) == ApplyAll(ApplyAll(l, a), b)
  {
    if b == [] {
      assert a + b == a;
    } else {
      var n := |b| - 1;
      assert (a + b)[..|a + b| - 1] == a + b[..n];
      ApplyAppend(l, a, b[..n]);
    }
  }

  predicate Committed(l: Ledger, id: AllocationId, note: NoteId) {
    (id, note) in l.owned && l.owned[(id, note)].committed
  }

  /** The committed notes and their amounts only ever accumulate. */
  lemma {:induction false} CommittedStays(l: Ledger, trace: seq<Op>, id: AllocationId, note: NoteId)
    requires Committed(l, id, note)
    ensures Committed(ApplyAll(l, trace), id, note)
    ensures ApplyAll(l, trace).owned[(id, note)] == l.owned[(id, note)]
  {
    if trace != [] {
      CommittedStays(l, trace[..|trace| - 1], id, note);
    }
  }

  /** The op is the judgement that a well-formed note belongs to `id`, made while `id` was watched. */
  ghost predicate FindsNote(op: Op, id: AllocationId, note: NoteId, amount: nat) {
    && op.Scan? && !op.candidate.malformed && op.candidate.owner == Some(id) && id in op.watched
    && op.candidate.note == note && op.candidate.amount == amount
  }

  /** The op is a well-formed completion of the note. */
  ghost predicate CompletesNote(op: Op, note: NoteId) {
    op.Complete? && !op.event.malformed && op.event.note == note
  }

  lemma {:induction false} OwnedStays(l: Ledger, trace: seq<Op>)
    ensures l.owned.Keys <= ApplyAll(l, trace).owned.Keys
  {
    if trace != [] {
      OwnedStays(l, trace[..|trace| - 1]);
    }
  }

  /** Nothing is invented: a note the ledger holds for an allocation was held there before, or was found to be its in
      a judgement of the pass, with that amount; and one that has become committed was completed in the pass. */
  lemma {:induction false} LedgerHoldsWhatWasServed(l: Ledger, trace: seq<Op>, id: AllocationId, note: NoteId)
    requires (id, note) in ApplyAll(l, trace).owned
    ensures var held := ApplyAll(l, trace).owned[(id, note)];
            && (if (id, note) in l.owned then held.amount == l.owned[(id, note)].amount
                else exists i :: 0 <= i < |trace| && FindsNote(trace[i], id, note, held.amount))
            && (held.committed && !Committed(l, id, note) ==>
                  exists i :: 0 <= i < |trace| && CompletesNote(trace[i], note))
  {
    if trace != [] {
      var n := |trace| - 1;
      var front, op := trace[..n], trace[n];
      var before, held := ApplyAll(l, front), ApplyAll(l, trace).owned[(id, note)];
      OwnedStays(l, front);
      if (id, note) in before.owned {
        LedgerHoldsWhatWasServed(l, front, id, note);
        assert held.amount == before.owned[(id, note)].amount;
        assert held.committed ==> before.owned[(id, note)].committed || CompletesNote(op, note);
        assert forall i :: 0 <= i < n ==> front[i] == trace[i];
      } else {
        assert FindsNote(trace[n], id, note, held.amount) && !held.committed;
      }
    }
  }

  /** Judging the same candidate twice is harmless. */
  lemma {:induction false} RecordingTwiceIsHarmless(l: Ledger, c: PendingNote, watched: set<AllocationId>)
    ensures Apply(Apply(l, Scan(c, watched)), Scan(c, watched)) == Apply(l, Scan(c, watched))
  {}

  /** The durable store behind the watcher. */
  class Store {
    var pendingCursor: Option<nat>
    var committedCursor: Option<nat>
    var owned: map<(AllocationId, NoteId), OwnedNote>
    var sessions: map<NoteId, AllocationId>

    constructor ()
      ensures Contents() == Ledger(None, None, map[], map[])
    {
      pendingCursor, committedCursor, owned, sessions := None, None, map[], map[];
    }

    function Contents(): Ledger
      reads this
    {
      Ledger(pendingCursor, committedCursor, owned, sessions)
    }

    method RecordOwnedCandidate(id: AllocationId, note: NoteId, amount: nat, at: nat)
      modifies this
      ensures Contents() == RecordedOwned(old(Contents()), id, note, amount, at)
    {
      if (id, note) !in owned {
        owned := owned[(id, note) := OwnedNote(amount, false)];
      }
      sessions := sessions[note := id];
      pendingCursor := Some(at);
    }

    method RecordCompletion(note: NoteId, at: nat) returns (found: Option<AllocationId>)
      modifies this
      ensures found == KnownOwner(old(Contents()), note)
      ensures Contents() == RecordedCompletion(old(Contents()), note, at)
    {
      found := None;
      if note in sessions {
        var key := (sessions[note], note);
        if key in owned {
          owned := owned[key := owned[key].(committed := true)];
          found := Some(key.0);
        }
      }
      committedCursor := Some(at);
    }

    method AdvancePending(at: nat)
      modifies this`pendingCursor
      ensures pendingCursor == Some(at)
    {
      pendingCursor := Some(at);
    }

    method AdvanceCommitted(at: nat)
      modifies this`committedCursor
      ensures committedCursor == Some(at)
    {
      committedCursor := Some(at);
    }
  }

  // ---------------------------------------------------------------------------------------------
  // A pass
  // ---------------------------------------------------------------------------------------------

  datatype Verdict = Finished | NobodyWaiting | Faulted

  /** The trace judges exactly the candidates `notes`, in order, and never with nobody watching. */
  ghost predicate Judges(trace: seq<Op>, notes: seq<PendingNote>) {
    |trace| == |notes| && forall i :: 0 <= i < |trace| ==>
        trace[i].Scan? && trace[i].candidate == notes[i] && trace[i].watched != {}
  }

  lemma {:induction false} JudgesAppend(a: seq<Op>, notes: seq<PendingNote>, b: seq<Op>, more: seq<PendingNote>)
    requires Judges(a, notes) && Judges(b, more)
    ensures Judges(a + b, notes + more)
  {}

  /** The pending notes a pass that starts at `cursor` has to judge. */
  function PendingWork(index: Index, cursor: Option<nat>): seq<PendingNote> {
    if index.snapshot then index.pending else After(index.pending, PENDING_AT, cursor)
  }

  /** The completions behind `cursor`. */
  function CommittedWork(index: Index, cursor: Option<nat>): seq<CommittedNote> {
    After(index.committed, COMMITTED_AT, cursor)
  }

  function CommittedPageAt(index: Index, cursor: Option<nat>, first: nat): seq<CommittedNote> {
    Page(index.committed, COMMITTED_AT, cursor, first)
  }

  function Candidates(page: seq<CommittedNote>): seq<PendingNote> {
    if page == [] then []
    else
      var last := page[|page| - 1];
      Candidates(page[..|page| - 1]) + if last.scan.Some? then [last.scan.value] else []
  }

  /** Completions of these events have been recorded, in order, each after its own candidate was judged. */
  ghost predicate Completes(trace: seq<Op>, events: seq<CommittedNote>) {
    CompletedIn(trace) == events && forall q :: 0 <= q < |trace| ==> CandidateFirst(trace, q)
  }

  ghost predicate CandidateFirst(trace: seq<Op>, q: nat)
    requires q < |trace|
  {
    trace[q].Complete? && trace[q].event.scan.Some? ==>
      exists p :: 0 <= p < q && trace[p].Scan? && trace[p].candidate == trace[q].event.scan.value
  }

  predicate ServedWith(c: PendingNote, events: seq<CommittedNote>) {
    exists i :: 0 <= i < |events| && events[i].scan == Some(c)
  }

  /** What the trace scans was served with one of these completions. */
  ghost predicate ScansServed(trace: seq<Op>, events: seq<CommittedNote>) {
    forall q :: 0 <= q < |trace| && trace[q].Scan? ==> ServedWith(trace[q].candidate, events)
  }

  function CompletedIn(trace: seq<Op>): seq<CommittedNote> {
    if trace == [] then []
    else
      var last := trace[|trace| - 1];
      CompletedIn(trace[..|trace| - 1]) + if last.Complete? then [last.event] else []
  }

  /** The completions a pass may record: those the chain can no longer take back. */
  function FinalPrefix(events: seq<CommittedNote>, finalizedThrough: nat): (r: seq<CommittedNote>)
    ensures |r| <= |events| && r == events[..|r|]
    ensures forall e :: e in r ==> e.block <= finalizedThrough
    ensures |r| < |events| ==> events[|r|].block > finalizedThrough
  {
    if events == [] || events[0].block > finalizedThrough then []
    else [events[0]] + FinalPrefix(events[1..], finalizedThrough)
  }

  function FinalizedThrough(index: Index): nat {
    if index.head >= index.finality then index.head - index.finality else 0
  }

  /** What the outside world does at each interaction of the watcher with it: which allocations are watched
      just then, whether the index, the detector or the store fails, and what the index serves. `limit` is
      how many events it can hold. */
  datatype Environment = Environment(watchedAt: nat -> set<AllocationId>, faultAt: nat -> bool, indexAt: nat -> Index,
                                     limit: nat)

  /** A later state of the index: events are only ever appended, but a snapshot is taken anew. */
  ghost predicate Grows(earlier: Index, later: Index) {
    && earlier.snapshot == later.snapshot
    && (!earlier.snapshot ==> earlier.pending <= later.pending)
    && earlier.committed <= later.committed
  }

  ghost predicate Growing(env: Environment) {
    && (forall k :: ValidIndex(env.indexAt(k)) && Within(env.indexAt(k), env.limit))
    && (forall j, k :: j <= k ==> Grows(env.indexAt(j), env.indexAt(k)))
  }

  predicate Within(index: Index, limit: nat) { |index.pending| <= limit && |index.committed| <= limit }

  lemma {:induction false} GrowsBetween(env: Environment, j: nat, k: nat)
    requires Growing(env) && j <= k
    ensures ValidIndex(env.indexAt(j)) && ValidIndex(env.indexAt(k)) && Grows(env.indexAt(j), env.indexAt(k))
    ensures Within(env.indexAt(k), env.limit)
  {}

  /** Somewhere among these interactions nobody was watching, or something failed. */
  ghost predicate Troubled(env: Environment, from: nat, to: nat) {
    exists k :: from <= k < to && (env.faultAt(k) || env.watchedAt(k) == {})
  }

  lemma {:induction false} TroubledWider(env: Environment, from: nat, a: nat, b: nat, to: nat)
    requires from <= a <= b <= to && Troubled(env, a, b)
    ensures Troubled(env, from, to)
  {}

  lemma {:induction false} TroubledHere(env: Environment, from: nat, k: nat, to: nat)
    requires from <= k < to && (env.faultAt(k) || env.watchedAt(k) == {})
    ensures Troubled(env, from, to)
  {}

  /** When a pass read its last page of pending notes, the indexed head, and its last page of completions. */
  datatype ReadAt = ReadAt(pending: nat, head: nat, committed: nat)

  /** The completions served by then that were final. */
  function FinalSeen(env: Environment, at: ReadAt): seq<CommittedNote> {
    FinalPrefix(env.indexAt(at.committed).committed, FinalizedThrough(env.indexAt(at.head)))
  }

  /** What a scan was judged against is who was watched at one of these interactions. */
  ghost predicate LooksAt(op: Op, env: Environment, from: nat, to: nat) {
    op.Scan? ==> exists k :: from <= k < to && op.watched == env.watchedAt(k)
  }

  ghost predicate Looks(trace: seq<Op>, env: Environment, from: nat, to: nat) {
    forall i :: 0 <= i < |trace| ==> LooksAt(trace[i], env, from, to)
  }

  lemma {:induction false} LooksAppend(env: Environment, a: seq<Op>, from: nat,
                                       mid: nat, b: seq<Op>, mid': nat, to: nat)
    requires from <= mid <= mid' <= to && Looks(a, env, from, mid) && Looks(b, env, mid', to)
    ensures Looks(a + b, env, from, to) && Looks(a, env, from, to)
  {
    var c := a + b;
    forall i | 0 <= i < |c| ensures LooksAt(c[i], env, from, to) {
      if i < |a| {
        assert LooksAt(a[i], env, from, mid);
      } else {
        assert LooksAt(b[i - |a|], env, mid', to);
      }
    }
    forall i | 0 <= i < |a| ensures LooksAt(a[i], env, from, to) {
      assert c[i] == a[i];
    }
  }

  lemma {:induction false} NoLooks(trace: seq<Op>, env: Environment, from: nat, to: nat)
    requires forall i :: 0 <= i < |trace| ==> !trace[i].Scan?
    ensures Looks(trace, env, from, to)
  {}

  lemma {:induction false} OneLook(env: Environment, k: nat, op: Op)
    requires op.Scan? && op.watched == env.watchedAt(k)
    ensures Looks([op], env, k, k + 1)
  {}

  /** The watcher task's view of the tracker: its store and the request for a historical replay. */
  class Watcher {
    const store: Store
    const env: Environment
    /** Interactions with the outside world so far. */
    var clock: nat
    var replayHistory: bool

    constructor (store: Store, env: Environment)
      ensures this.store == store && this.env == env && !replayHistory && clock == 0
    {
      this.store, this.env := store, env;
      replayHistory, clock := false, 0;
    }

    /** Whether the next read of the index or the store fails. */
    method Interact() returns (fault: bool)
      modifies `clock
      ensures clock == old(clock) + 1 && fault == env.faultAt(old(clock))
      ensures fault ==> Troubled(env, old(clock), clock)
    {
      fault := env.faultAt(clock);
      clock := clock + 1;
    }

    /** Judges one candidate against whoever is watched at that moment. A failure to build the detector
        or to write leaves the event to be judged again. */
    method ProcessCandidate(c: PendingNote) returns (verdict: Verdict, watched: set<AllocationId>)
      modifies `clock, store
      ensures clock == old(clock) + 1 && watched == env.watchedAt(old(clock))
      ensures verdict == if watched == {} then NobodyWaiting else if env.faultAt(old(clock)) then Faulted else Finished
      ensures verdict != Finished ==> Troubled(env, old(clock), clock)
      ensures store.Contents() == if verdict != Finished then old(store.Contents())
                                  else Apply(old(store.Contents()), Scan(c, watched))
    {
      watched := env.watchedAt(clock);
      var fault := Interact();
      if watched == {} {
        TroubledHere(env, clock - 1, clock - 1, clock);
        return NobodyWaiting, watched;
      }
      if fault {
        return Faulted, watched;
      }
      if c.malformed {
        store.AdvancePending(c.at);
      } else if c.owner.Some? && c.owner.value in watched {
        store.RecordOwnedCandidate(c.owner.value, c.note, c.amount, c.at);
      } else {
        store.AdvancePending(c.at);
      }
      verdict := Finished;
    }

    /** Records one completion; `written` says whether it got that far. Reading the amount back to tell
        the waiters may still fail then. */
    method ProcessCompletion(e: CommittedNote) returns (verdict: Verdict, written: bool)
      modifies `clock, store
      ensures clock == old(clock) + 2 && written == !env.faultAt(old(clock))
      ensures verdict == (if !written
                             || (!e.malformed && KnownOwner(old(store.Contents()), e.note).Some?
                                 && env.faultAt(old(clock) + 1))
                          then Faulted else Finished)
      ensures verdict == Faulted ==> Troubled(env, old(clock), clock)
      ensures store.Contents() == if written then Apply(old(store.Contents()), Complete(e)) else old(store.Contents())
    {
      ghost var from := clock;
      var writeFails := Interact();
      var readFails := Interact();
      if writeFails {
        TroubledHere(env, from, from, clock);
        return Faulted, false;
      }
      if e.malformed {
        store.AdvanceCommitted(e.at);
        return Finished, true;
      }
      var found := store.RecordCompletion(e.note, e.at);
      if found.Some? && readFails {
        TroubledHere(env, from, from + 1, clock);
        return Faulted, true;
      }
      return Finished, true;
    }

    /** Judges candidates one after another until done, until nobody is watching, or until a fault. */
    method ScanAll(notes: seq<PendingNote>) returns (verdict: Verdict, trace: seq<Op>)
      modifies `clock, store
      ensures |trace| <= |notes| && Judges(trace, notes[..|trace|])
      ensures verdict == Finished ==> |trace| == |notes|
      ensures old(clock) <= clock && (verdict != Finished ==> Troubled(env, old(clock), clock))
      ensures Looks(trace, env, old(clock), clock)
      ensures store.Contents() == ApplyAll(old(store.Contents()), trace)
    {
      hide Troubled, Apply, Looks;
      trace := [];
      NoLooks([], env, clock, clock);
      for i := 0 to |notes|
        invariant |trace| == i && Judges(trace, notes[..i]) && old(clock) <= clock
        invariant Looks(trace, env, old(clock), clock)
        invariant store.Contents() == ApplyAll(old(store.Contents()), trace)
      {
        ghost var from := clock;
        var v, watched := ProcessCandidate(notes[i]);
        OneLook(env, from, Scan(notes[i], watched));
        LooksAppend(env, trace, old(clock), from, [Scan(notes[i], watched)], from, clock);
        if v != Finished {
          TroubledWider(env, old(clock), from, clock, clock);
          return v, trace;
        }
        ghost var before := trace;
        trace := trace + [Scan(notes[i], watched)];
        assert trace[..|trace| - 1] == before;
      }
      return Finished, trace;
    }

    /** All pending notes behind the cursor, page by page, each page from the index as it is then. `read` is
        when the last page was read. */
    method PendingPhase(cursor: Option<nat>, first: nat) returns (verdict: Verdict, trace: seq<Op>, ghost read: nat)
      requires Growing(env) && first > 0
      modifies `clock, store
      ensures old(clock) <= read < clock
      ensures var work := PendingWork(env.indexAt(read), cursor);
              && |trace| <= |work| && Judges(trace, work[..|trace|])
              && (verdict == Finished ==> |trace| == |work|)
      ensures verdict != Finished ==> Troubled(env, old(clock), clock)
      ensures Looks(trace, env, old(clock), clock)
      ensures store.Contents() == ApplyAll(old(store.Contents()), trace)
    {
      hide Troubled, Looks, Apply, ApplyAll, Judges, PendingWork, PendingPage, ValidIndex, Growing, Grows, LeftAt;
      var after, hasMore := cursor, true;
      trace, read := [], clock;
      NothingDone(store.Contents());
      NoLooks([], env, clock, clock);
      NothingLeftAt(env.indexAt(read), cursor);
      while hasMore
        invariant old(clock) <= read <= clock && (read == clock ==> read == old(clock) && hasMore)
        invariant |trace| <= |PendingWork(env.indexAt(read), cursor)| <= |env.indexAt(read).pending|
        invariant Judges(trace, PendingWork(env.indexAt(read), cursor)[..|trace|])
        invariant if hasMore then LeftAt(env.indexAt(read), cursor, after, |trace|)
                  else |trace| == |PendingWork(env.indexAt(read), cursor)|
        invariant Looks(trace, env, old(clock), clock)
        invariant store.Contents() == ApplyAll(old(store.Contents()), trace)
        decreases hasMore, env.limit - |trace|
      {
        ghost var from := clock;
        var index := env.indexAt(clock);
        var fault := Interact();
        if fault {
          NoLooks([], env, clock, clock);
          LooksAppend(env, trace, old(clock), from, [], clock, clock);
          TroubledWider(env, old(clock), from, clock, clock);
          return Faulted, trace, read;
        }
        GrowsBetween(env, read, from);
        PendingResumes(env.indexAt(read), index, cursor, after, |trace|);
        ghost var work := PendingWork(index, cursor);
        read := from;
        var page := PendingPage(index, after, first);
        PageServesTheNext(index, after, first, work, |trace|);
        var v, scanned := ScanAll(page.notes);
        ApplyAppend(old(store.Contents()), trace, scanned);
        JudgesNext(trace, work, scanned, page.notes);
        LooksAppend(env, trace, old(clock), from, scanned, from + 1, clock);
        ghost var n := |trace|;
        trace := trace + scanned;
        if v != Finished {
          TroubledWider(env, old(clock), from + 1, clock, clock);
          return v, trace, read;
        }
        hasMore := page.hasMore;
        ghost var was := after;
        if hasMore {
          after := Some(page.notes[|page.notes| - 1].at);
          LeftAfterPage(index, cursor, was, first, page, n);
        }
      }
      return Finished, trace, read;
    }

    /** Records a page's completions until the first one the chain could still take back. */
    method CompleteAll(page: seq<CommittedNote>, finalizedThrough: nat)
      returns (verdict: Verdict, reachedUnfinalized: bool, trace: seq<Op>)
      modifies `clock, store
      ensures |trace| <= |page| && verdict != NobodyWaiting
      ensures forall i :: 0 <= i < |trace| ==> trace[i] == Complete(page[i]) && page[i].block <= finalizedThrough
      ensures verdict == Finished && reachedUnfinalized ==> |trace| < |page| && page[|trace|].block > finalizedThrough
      ensures verdict == Finished && !reachedUnfinalized ==> |trace| == |page|
      ensures old(clock) <= clock && (verdict != Finished ==> Troubled(env, old(clock), clock))
      ensures store.Contents() == ApplyAll(old(store.Contents()), trace)
    {
      hide Troubled, Apply;
      trace, reachedUnfinalized := [], false;
      for i := 0 to |page|
        invariant |trace| == i && old(clock) <= clock
        invariant forall j :: 0 <= j < i ==> trace[j] == Complete(page[j]) && page[j].block <= finalizedThrough
        invariant store.Contents() == ApplyAll(old(store.Contents()), trace)
      {
        ghost var from := clock;
        var fault := Interact();
        if fault {
          TroubledWider(env, old(clock), from, clock, clock);
          return Faulted, false, trace;
        }
        if page[i].block > finalizedThrough {
          return Finished, true, trace;
        }
        var v, written := ProcessCompletion(page[i]);
        if written {
          ghost var before := trace;
          trace := trace + [Complete(page[i])];
          assert trace[..|trace| - 1] == before;
        }
        if v == Faulted {
          TroubledWider(env, old(clock), from + 1, clock, clock);
          return Faulted, false, trace;
        }
      }
      return Finished, false, trace;
    }

    /** One page of completions: the page's own candidates are judged before any of it is recorded. They are
        read after the page, from an index that may have advanced since. */
    method CommittedPage(page: seq<CommittedNote>, after: Option<nat>, finalizedThrough: nat,
                         ghost read: nat, ghost before: seq<Op>, ghost events: seq<CommittedNote>)
      returns (verdict: Verdict, reachedUnfinalized: bool, trace: seq<Op>, completed: nat)
      requires Growing(env) && read <= clock && Completes(before, events)
      requires page <= CommittedWork(env.indexAt(read), after)
      modifies `clock, store
      ensures completed <= |page| && Completes(before + trace, events + page[..completed])
      ensures ScansServed(trace, page)
      ensures forall i :: 0 <= i < completed ==> page[i].block <= finalizedThrough
      ensures verdict == Finished && reachedUnfinalized ==>
                completed < |page| && page[completed].block > finalizedThrough
      ensures verdict == Finished && !reachedUnfinalized ==> completed == |page|
      ensures old(clock) <= clock && (verdict != Finished ==> Troubled(env, old(clock), clock))
      ensures Looks(trace, env, old(clock), clock)
      ensures store.Contents() == ApplyAll(old(store.Contents()), trace)
    {
      hide Troubled, Looks, Apply, ApplyAll, Completes, Candidates, Judges, ServedWith, Growing, Grows, ValidIndex,
        CommittedPageAt, CommittedWork;
      reachedUnfinalized, completed := false, 0;
      trace := [];
      assert events + page[..0] == events && before + [] == before;
      NothingDone(store.Contents());
      NoLooks([], env, clock, clock + 1);
      var candidates: seq<PendingNote> := [];
      NoCandidates();
      if |page| > 0 {
        GrowsBetween(env, read, clock);
        CandidatesOfThePage(env.indexAt(read), env.indexAt(clock), after, page);
        candidates := Candidates(CommittedPageAt(env.indexAt(clock), after, |page|));
        var fault := Interact();
        if fault {
          verdict := Faulted;
          return;
        }
      } else {
        assert page == [];
      }
      ghost var from := clock;
      verdict, trace := ScanAll(candidates);
      ScansCompleteNothing(before, events, trace, candidates[..|trace|]);
      CandidatesAreServed(page, trace);
      NoLooks([], env, old(clock), from);
      LooksAppend(env, [], old(clock), from, trace, from, clock);
      assert [] + trace == trace;
      if verdict != Finished {
        TroubledWider(env, old(clock), from, clock, clock);
        return;
      }
      ghost var mid := clock;
      assert candidates[..|trace|] == candidates;
      var scanned, recorded := trace, [];
      verdict, reachedUnfinalized, recorded := CompleteAll(page, finalizedThrough);
      ApplyAppend(old(store.Contents()), scanned, recorded);
      if verdict != Finished {
        TroubledWider(env, old(clock), mid, clock, clock);
      }
      PageCompletes(before, events, scanned, page, recorded);
      NoLooks(recorded, env, mid, clock);
      LooksAppend(env, scanned, old(clock), mid, recorded, mid, clock);
      trace, completed := scanned + recorded, |recorded|;
      assert before + scanned + recorded == before + trace;
    }

    /** All final completions behind the cursor, page by page, each page from the index as it is then. `read`
        is when the last page was read. */
    method CommittedPhase(cursor: Option<nat>, first: nat, finalizedThrough: nat)
      returns (verdict: Verdict, trace: seq<Op>, ghost read: nat)
      requires Growing(env) && first > 0
      modifies `clock, store
      ensures old(clock) <= read < clock
      ensures CompletesAStart(trace, CommittedWork(env.indexAt(read), cursor), finalizedThrough)
      ensures verdict == Finished ==>
                Completes(trace, FinalPrefix(CommittedWork(env.indexAt(read), cursor), finalizedThrough))
      ensures ScansServed(trace, env.indexAt(read).committed)
      ensures verdict != Finished ==> Troubled(env, old(clock), clock)
      ensures Looks(trace, env, old(clock), clock)
      ensures store.Contents() == ApplyAll(old(store.Contents()), trace)
    {
      hide Troubled, Looks, Apply, ApplyAll, CommittedWork, ValidIndex, FinalPrefix, CommittedPageAt, CompletedRun,
        Completes, ScansServed, Growing, Grows, CompletedTo;
      var after, more := cursor, true;
      ghost var m: nat := 0;
      trace, read := [], clock;
      NothingServed(env.indexAt(read).committed);
      NothingDone(store.Contents());
      NoLooks([], env, clock, clock);
      RunBegins(CommittedWork(env.indexAt(read), cursor), finalizedThrough);
      NothingCompletedTo(env.indexAt(read), cursor);
      while more
        invariant old(clock) <= read <= clock && (read == clock ==> read == old(clock) && more)
        invariant CompletedRun(trace, CommittedWork(env.indexAt(read), cursor), m, finalizedThrough)
        invariant m <= |CommittedWork(env.indexAt(read), cursor)| <= |env.indexAt(read).committed|
        invariant if more then CompletedTo(env.indexAt(read), cursor, after, m)
                  else
                    var work := CommittedWork(env.indexAt(read), cursor);
                    m == |work| || work[m].block > finalizedThrough
        invariant Looks(trace, env, old(clock), clock) && ScansServed(trace, env.indexAt(read).committed)
        invariant store.Contents() == ApplyAll(old(store.Contents()), trace)
        decreases more, env.limit - m
      {
        ghost var from := clock;
        var index := env.indexAt(clock);
        var fault := Interact();
        if fault {
          NoLooks([], env, clock, clock);
          LooksAppend(env, trace, old(clock), from, [], clock, clock);
          TroubledWider(env, old(clock), from, clock, clock);
          return Faulted, trace, read;
        }
        GrowsBetween(env, read, from);
        CommittedResumes(env.indexAt(read), index, cursor, after, m);
        RunOnGrownIndex(env.indexAt(read), index, cursor, trace, m, finalizedThrough);
        ghost var work := CommittedWork(index, cursor);
        read := from;
        var page := CommittedPageAt(index, after, first);
        CommittedPageServes(index, after, first, work, m);
        RunCompletes(trace, work, m, finalizedThrough);
        var v, reached, made, completed := CommittedPage(page, after, finalizedThrough, read, trace, work[..m]);
        ApplyAppend(old(store.Contents()), trace, made);
        RunGrows(trace, work, m, finalizedThrough, page, made, completed);
        PageIsServed(index, cursor, work, m, page, made);
        ServedAppend(trace, made, index.committed);
        LooksAppend(env, trace, old(clock), from, made, from + 1, clock);
        ghost var m0 := m;
        trace, m := trace + made, m + completed;
        if v != Finished {
          TroubledWider(env, old(clock), from + 1, clock, clock);
          return v, trace, read;
        }
        more := !reached && |page| == first;
        if more {
          after := Some(page[|page| - 1].at);
          CompletedToPage(index, cursor, page, m0);
        }
      }
      RunCompletes(trace, CommittedWork(env.indexAt(read), cursor), m, finalizedThrough);
      FinalPrefixIs(CommittedWork(env.indexAt(read), cursor), m, finalizedThrough);
      return Finished, trace, read;
    }

    /** One catch-up pass: pending notes first, then final completions. A replay starts both from the
        beginning. The second trace is empty unless the first phase finished. `at` is when the last page of
        either phase and the indexed head between them were read. */
    method CatchUp(replay: bool, first: nat)
      returns (verdict: Verdict, pendingTrace: seq<Op>, committedTrace: seq<Op>, ghost at: ReadAt)
      requires Growing(env) && first > 0
      modifies `clock, store
      ensures old(clock) <= at.pending <= at.head <= at.committed < clock
      ensures verdict != Finished ==> Troubled(env, old(clock), clock)
      ensures Looks(pendingTrace + committedTrace, env, old(clock), clock)
      ensures store.Contents() == ApplyAll(old(store.Contents()), pendingTrace + committedTrace)
      ensures var work := PendingWork(env.indexAt(at.pending), if replay then None else old(store.pendingCursor));
              && |pendingTrace| <= |work| && Judges(pendingTrace, work[..|pendingTrace|])
              && (verdict == Finished ==> Judges(pendingTrace, work))
      ensures ScansServed(committedTrace, env.indexAt(at.committed).committed)
      ensures NoScans(env.indexAt(at.committed).committed) ==> LastScan(committedTrace).None?
      ensures var work := CommittedWork(env.indexAt(at.committed), if replay then None else old(store.committedCursor));
              && CompletesAStart(committedTrace, work, FinalizedThrough(env.indexAt(at.head)))
              && (verdict == Finished ==>
                    Completes(committedTrace, FinalPrefix(work, FinalizedThrough(env.indexAt(at.head)))))
      ensures JudgesTheDue(pendingTrace, env.indexAt(at.pending), if replay then None else old(store.pendingCursor),
                           verdict == Finished)
      ensures RecordsTheFinal(committedTrace, env.indexAt(at.committed), env.indexAt(at.head),
                              if replay then None else old(store.committedCursor), verdict == Finished)
    {
      hide Troubled, Looks, Apply, ApplyAll, CommittedWork, ValidIndex, Completes, FinalPrefix, PendingWork,
        ScansServed, CompletedRun, Growing, Grows, FinalizedThrough, LastScan, NoScans, RecordsTheFinal, JudgesTheDue;
      committedTrace := [];
      ghost var c0, committedFrom := clock, if replay then None else store.committedCursor;
      var fault := Interact();
      if fault {
        NothingDone(store.Contents());
        pendingTrace, at := [], ReadAt(c0, c0, c0);
        NothingJudged(env.indexAt(c0), if replay then None else store.pendingCursor);
        NothingCompleted(env, at, committedFrom);
        NoLooks([], env, old(clock), clock);
        assert pendingTrace + committedTrace == [];
        return Faulted, pendingTrace, committedTrace, at;
      }
      ghost var from := clock;
      var pendingAfter := if replay then None else store.pendingCursor;
      ghost var read;
      verdict, pendingTrace, read := PendingPhase(pendingAfter, first);
      at := ReadAt(read, read, read);
      NothingCompleted(env, at, committedFrom);
      GrowsBetween(env, read, read);
      TraversalJudgesTheDue(env.indexAt(read), pendingAfter, pendingTrace, verdict == Finished);
      PendingLeavesCommittedCursor(old(store.Contents()), pendingTrace,
                                   PendingWork(env.indexAt(read), pendingAfter)[..|pendingTrace|]);
      assert pendingTrace + [] == pendingTrace;
      NoLooks([], env, old(clock), from);
      LooksAppend(env, [], old(clock), from, pendingTrace, from, clock);
      assert [] + pendingTrace == pendingTrace;
      if verdict != Finished {
        TroubledWider(env, old(clock), from, clock, clock);
        return;
      }
      ghost var mid := clock;
      var finalizedThrough := FinalizedThrough(env.indexAt(clock));
      fault := Interact();
      NoLooks([], env, clock, clock);
      LooksAppend(env, pendingTrace, old(clock), mid, [], clock, clock);
      if fault {
        TroubledWider(env, old(clock), mid, clock, clock);
        return Faulted, pendingTrace, [], at;
      }
      ghost var work := PendingWork(env.indexAt(at.pending), pendingAfter);
      assert work[..|pendingTrace|] == work;
      var committedAfter := if replay then None else store.committedCursor;
      verdict, committedTrace, read := CommittedPhase(committedAfter, first, finalizedThrough);
      at := ReadAt(at.pending, mid, read);
      ApplyAppend(old(store.Contents()), pendingTrace, committedTrace);
      LooksAppend(env, pendingTrace, old(clock), mid, committedTrace, mid + 1, clock);
      if verdict != Finished {
        TroubledWider(env, old(clock), mid + 1, clock, clock);
      }
      GrowsBetween(env, at.committed, at.committed);
      TraversalRecordsTheFinal(env.indexAt(at.committed), env.indexAt(at.head), committedFrom, committedTrace,
                               verdict == Finished);
      if NoScans(env.indexAt(at.committed).committed) {
        CompletePendingViewResumes(env.indexAt(at.committed).committed, committedTrace);
      }
    }

    /** One turn of the watcher: it takes the replay request, and a pass that fails gives it back. A replay
        that finishes has committed every final deposit of the allocations watched all along. */
    method RunOnce(first: nat)
      returns (verdict: Verdict, pendingTrace: seq<Op>, committedTrace: seq<Op>, ghost at: ReadAt)
      requires Growing(env) && first > 0
      modifies this, store
      ensures replayHistory <==> old(replayHistory) && verdict == Faulted
      ensures old(clock) <= at.pending <= at.head <= at.committed < clock
      ensures verdict != Finished ==> Troubled(env, old(clock), clock)
      ensures Looks(pendingTrace + committedTrace, env, old(clock), clock)
      ensures store.Contents() == ApplyAll(old(store.Contents()), pendingTrace + committedTrace)
      ensures verdict == Finished && old(replayHistory) ==>
                Judges(pendingTrace, env.indexAt(at.pending).pending) && Completes(committedTrace, FinalSeen(env, at))
      ensures verdict == Finished && old(replayHistory) && OneOwnerServed(env, at) ==>
                forall id :: WatchedAlways(env, old(clock), clock, id) ==>
                               DepositsCommitted(store.Contents(), env, at, id)
    {
      hide Troubled, Looks, ApplyAll, Judges, Completes, FinalPrefix, Growing, ScansServed, OneOwnerServed,
        DepositsCommitted, WatchedAlways, ValidIndex;
      var replay := replayHistory;
      replayHistory := false;
      verdict, pendingTrace, committedTrace, at := CatchUp(replay, first);
      GrowsBetween(env, at.committed, at.committed);
      if verdict == Finished && replay && OneOwnerServed(env, at) {
        ReplayWhileWatched(env, at, old(store.Contents()), pendingTrace, committedTrace, old(clock), clock);
      }
      if verdict == Faulted && replay {
        replayHistory := true;
      }
    }
  }

  datatype PendingNotes = PendingNotes(notes: seq<PendingNote>, hasMore: bool)

  /** What one read of pending notes returns. */
  function PendingPage(index: Index, cursor: Option<nat>, first: nat): PendingNotes {
    if index.snapshot then PendingNotes(index.pending, false)
    else
      var notes := Page(index.pending, PENDING_AT, cursor, first);
      PendingNotes(notes, |notes| == first)
  }

  /** Where the events behind a cursor continue once more have been appended. */
  lemma {:induction false} BehindGrows<T>(events: seq<T>, later: seq<T>, at: T -> nat, cursor: Option<nat>, n: nat)
    requires events <= later && n <= |After(events, at, cursor)|
    ensures n <= |After(later, at, cursor)| && After(later, at, cursor)[..n] == After(events, at, cursor)[..n]
  {
    if n > 0 {
      var more := later[|events|..];
      assert later == events + more;
      AfterGrows(events, more, at, cursor);
    }
  }

  lemma {:induction false} Resumes<T>(events: seq<T>, later: seq<T>, at: T -> nat,
                                      cursor: Option<nat>, after: Option<nat>, n: nat)
    requires Ascending(later, at) && events <= later && n <= |After(events, at, cursor)|
    requires after == if n == 0 then cursor else Some(at(After(events, at, cursor)[n - 1]))
    ensures n <= |After(later, at, cursor)| && After(later, at, cursor)[..n] == After(events, at, cursor)[..n]
    ensures After(later, at, after) == After(later, at, cursor)[n..]
  {
    BehindGrows(events, later, at, cursor, n);
    hide After, Ascending;
    if n > 0 {
      assert After(later, at, cursor)[..n][n - 1] == After(events, at, cursor)[..n][n - 1];
      AfterEvent(later, at, cursor, n - 1);
    } else {
      DropNothing(After(later, at, cursor));
    }
  }

  /** The next page starts at `after`: right behind the `n` notes judged. */
  ghost predicate LeftAt(index: Index, cursor: Option<nat>, after: Option<nat>, n: nat)
    requires n <= |PendingWork(index, cursor)|
  {
    if n == 0 then after == cursor
    else !index.snapshot && after == Some(PendingWork(index, cursor)[n - 1].at)
  }

  lemma {:induction false} NothingLeftAt(index: Index, cursor: Option<nat>)
    ensures LeftAt(index, cursor, cursor, 0) && Judges([], PendingWork(index, cursor)[..0])
    ensures |PendingWork(index, cursor)| <= |index.pending|
  {}

  /** What was judged is the start of the work on the index as it is now, and the next page leaves off there. */
  lemma {:induction false} PendingResumes(earlier: Index, index: Index, cursor: Option<nat>, after: Option<nat>, n: nat)
    requires ValidIndex(index) && Grows(earlier, index)
    requires n <= |PendingWork(earlier, cursor)| && LeftAt(earlier, cursor, after, n)
    ensures n <= |PendingWork(index, cursor)| <= |index.pending|
    ensures PendingWork(index, cursor)[..n] == PendingWork(earlier, cursor)[..n]
    ensures PendingWork(index, after) == PendingWork(index, cursor)[n..]
  {
    if n > 0 || !index.snapshot {
      Resumes(earlier.pending, index.pending, PENDING_AT, cursor, after, n);
    } else {
      DropNothing(index.pending);
    }
  }

  lemma {:induction false} LeftAfterPage(index: Index, cursor: Option<nat>, after: Option<nat>,
                                         first: nat, page: PendingNotes, n: nat)
    requires page == PendingPage(index, after, first) && page.hasMore && page.notes != []
    requires n + |page.notes| <= |PendingWork(index, cursor)|
    requires page.notes == PendingWork(index, cursor)[n..n + |page.notes|]
    ensures LeftAt(index, cursor, Some(page.notes[|page.notes| - 1].at), n + |page.notes|)
  {
    hide After, Page;
  }

  /** The next page starts at `after`: right behind the `m` completions recorded. */
  ghost predicate CompletedTo(index: Index, cursor: Option<nat>, after: Option<nat>, m: nat)
    requires m <= |CommittedWork(index, cursor)|
  {
    after == if m == 0 then cursor else Some(CommittedWork(index, cursor)[m - 1].at)
  }

  lemma {:induction false} NothingCompletedTo(index: Index, cursor: Option<nat>)
    ensures CompletedTo(index, cursor, cursor, 0) && |CommittedWork(index, cursor)| <= |index.committed|
  {}

  lemma {:induction false} CommittedResumes(earlier: Index, index: Index,
                                            cursor: Option<nat>, after: Option<nat>, m: nat)
    requires ValidIndex(index) && Grows(earlier, index)
    requires m <= |CommittedWork(earlier, cursor)| && CompletedTo(earlier, cursor, after, m)
    ensures m <= |CommittedWork(index, cursor)| <= |index.committed|
    ensures CommittedWork(index, cursor)[..m] == CommittedWork(earlier, cursor)[..m]
    ensures CommittedWork(index, after) == CommittedWork(index, cursor)[m..]
  {
    Resumes(earlier.committed, index.committed, COMMITTED_AT, cursor, after, m);
  }

  /** What was recorded is a start of the work on the index as it is now. */
  lemma {:induction false} RunOnGrownIndex(earlier: Index, index: Index, cursor: Option<nat>,
                                           trace: seq<Op>, m: nat, finalizedThrough: nat)
    requires Grows(earlier, index) && ScansServed(trace, earlier.committed)
    requires CompletedRun(trace, CommittedWork(earlier, cursor), m, finalizedThrough)
    requires m <= |CommittedWork(index, cursor)|
    requires CommittedWork(index, cursor)[..m] == CommittedWork(earlier, cursor)[..m]
    ensures CompletedRun(trace, CommittedWork(index, cursor), m, finalizedThrough)
    ensures ScansServed(trace, index.committed)
  {
    hide Completes, After;
    var work, before := CommittedWork(index, cursor), CommittedWork(earlier, cursor);
    forall i | 0 <= i < m ensures work[i].block <= finalizedThrough {
      assert work[..m][i] == before[..m][i];
    }
    forall q | 0 <= q < |trace| && trace[q].Scan? ensures ServedWith(trace[q].candidate, index.committed) {
      var i :| 0 <= i < |earlier.committed| && earlier.committed[i].scan == Some(trace[q].candidate);
      assert index.committed[i] == earlier.committed[i];
    }
  }

  lemma {:induction false} CompletedToPage(index: Index, cursor: Option<nat>, page: seq<CommittedNote>, m: nat)
    requires page != [] && m + |page| <= |CommittedWork(index, cursor)|
    requires page == CommittedWork(index, cursor)[m..m + |page|]
    ensures CompletedTo(index, cursor, Some(page[|page| - 1].at), m + |page|)
  {
    hide After;
  }

  lemma {:induction false} NothingCompleted(env: Environment, at: ReadAt, cursor: Option<nat>)
    ensures var work := CommittedWork(env.indexAt(at.committed), cursor);
            CompletesAStart([], work, FinalizedThrough(env.indexAt(at.head)))
    ensures RecordsTheFinal([], env.indexAt(at.committed), env.indexAt(at.head), cursor, false)
    ensures ScansServed([], env.indexAt(at.committed).committed) && LastScan([]).None?
  {
    RunBegins(CommittedWork(env.indexAt(at.committed), cursor), FinalizedThrough(env.indexAt(at.head)));
    hide CompletedRun, FinalizedThrough;
  }

  lemma {:induction false} NoCandidates()
    ensures Candidates([]) == []
  {}

  /** However far the index has advanced between the two reads, the candidates read after a page are those of
      that page, so nothing is completed unscanned. */
  lemma {:induction false} CandidatesOfThePage(earlier: Index, later: Index,
                                               after: Option<nat>, page: seq<CommittedNote>)
    requires Grows(earlier, later) && page <= CommittedWork(earlier, after)
    ensures CommittedPageAt(later, after, |page|) == page
  {
    BehindGrows(earlier.committed, later.committed, COMMITTED_AT, after, |page|);
    hide After;
    assert page == CommittedWork(earlier, after)[..|page|];
  }

  /** The first `k` events behind a cursor, and what is behind the last of them. */
  lemma {:induction false} NextPage<T>(events: seq<T>, at: T -> nat, cursor: Option<nat>,
                                       first: nat, work: seq<T>, m: nat)
    requires Ascending(events, at) && first > 0 && m <= |work| && After(events, at, cursor) == work[m..]
    ensures var page := Page(events, at, cursor, first);
            && |page| <= first && m + |page| <= |work| && page == work[m..m + |page|]
            && (if |page| < first then m + |page| == |work|
                else page != [] && After(events, at, Some(at(page[|page| - 1]))) == work[m + |page|..])
  {
    hide After, Ascending;
    var rest := work[m..];
    var page := rest[..Min(first, |rest|)];
    assert page == work[m..m + |page|];
    if |page| == first {
      AfterEvent(events, at, cursor, first - 1);
      assert page[first - 1] == rest[first - 1];
      assert rest[first..] == work[m + first..];
    }
  }

  /** A page serves the next of the remaining notes, claims more only if it was full, and then the cursor
      at its last note leaves exactly what it did not serve. */
  lemma {:induction false} PageServesTheNext(index: Index, cursor: Option<nat>,
                                             first: nat, work: seq<PendingNote>, m: nat)
    requires ValidIndex(index) && first > 0 && m <= |work| && PendingWork(index, cursor) == work[m..]
    ensures var page := PendingPage(index, cursor, first);
            && m + |page.notes| <= |work| && page.notes == work[m..m + |page.notes|]
            && (if page.hasMore
                then page.notes != []
                     && PendingWork(index, Some(page.notes[|page.notes| - 1].at)) == work[m + |page.notes|..]
                else m + |page.notes| == |work|)
  {
    hide After, Ascending, Page;
    if !index.snapshot {
      NextPage(index.pending, PENDING_AT, cursor, first, work, m);
    } else {
      assert work[m..] == work[m..m + |work[m..]|];
    }
  }

  lemma {:induction false} JudgesNext(trace: seq<Op>, work: seq<PendingNote>, scanned: seq<Op>, notes: seq<PendingNote>)
    requires |trace| + |notes| <= |work| && notes == work[|trace|..|trace| + |notes|]
    requires Judges(trace, work[..|trace|]) && |scanned| <= |notes| && Judges(scanned, notes[..|scanned|])
    ensures Judges(trace + scanned, work[..|trace + scanned|])
  {
    JudgesAppend(trace, work[..|trace|], scanned, notes[..|scanned|]);
    hide Judges;
    assert work[..|trace|] + notes[..|scanned|] == work[..|trace + scanned|];
  }

  lemma {:induction false} NothingDone(l: Ledger)
    ensures Judges([], []) && ApplyAll(l, []) == l && Completes([], [])
  {}

  lemma {:induction false} NothingServed(events: seq<CommittedNote>)
    ensures ScansServed([], events)
  {}

  lemma {:induction false} ServedAppend(a: seq<Op>, b: seq<Op>, events: seq<CommittedNote>)
    requires ScansServed(a, events) && ScansServed(b, events)
    ensures ScansServed(a + b, events)
  {
    hide ServedWith;
  }

  lemma {:induction false} CandidateIsServed(page: seq<CommittedNote>, i: nat)
    requires i < |Candidates(page)|
    ensures ServedWith(Candidates(page)[i], page)
  {
    var n := |page| - 1;
    var front := Candidates(page[..n]);
    if i < |front| {
      CandidateIsServed(page[..n], i);
      var j :| 0 <= j < n && page[..n][j].scan == Some(front[i]);
      assert page[j].scan == Some(front[i]);
    } else {
      assert page[n].scan == Some(Candidates(page)[i]);
    }
  }

  lemma {:induction false} CandidatesAreServed(page: seq<CommittedNote>, trace: seq<Op>)
    requires |trace| <= |Candidates(page)| && Judges(trace, Candidates(page)[..|trace|])
    ensures ScansServed(trace, page)
  {
    hide Candidates, ServedWith;
    forall q: nat | q < |trace| ensures ServedWith(trace[q].candidate, page) {
      CandidateIsServed(page, q);
    }
  }

  /** A page is part of what the index serves. */
  lemma {:induction false} PageIsServed(index: Index, cursor: Option<nat>, work: seq<CommittedNote>,
                                        m: nat, page: seq<CommittedNote>, made: seq<Op>)
    requires work == CommittedWork(index, cursor) && m + |page| <= |work| && page == work[m..m + |page|]
    requires ScansServed(made, page)
    ensures ScansServed(made, index.committed)
  {
    var k := AfterIsASuffix(index.committed, COMMITTED_AT, cursor);
    hide After;
    forall q | 0 <= q < |made| && made[q].Scan? ensures ServedWith(made[q].candidate, index.committed) {
      var i :| 0 <= i < |page| && page[i].scan == Some(made[q].candidate);
      assert index.committed[k + m + i] == page[i];
    }
  }

  lemma {:induction false} CommittedPageServes(index: Index, cursor: Option<nat>,
                                               first: nat, work: seq<CommittedNote>, m: nat)
    requires ValidIndex(index) && first > 0 && m <= |work| && CommittedWork(index, cursor) == work[m..]
    ensures var page := CommittedPageAt(index, cursor, first);
            && |page| <= first && m + |page| <= |work| && page == work[m..m + |page|]
            && page <= CommittedWork(index, cursor)
            && (if |page| < first then m + |page| == |work|
                else page != [] && CommittedWork(index, Some(page[|page| - 1].at)) == work[m + |page|..])
  {
    hide After, Ascending, Page;
    NextPage(index.committed, COMMITTED_AT, cursor, first, work, m);
  }

  lemma {:induction false} CompletedAppend(a: seq<Op>, b: seq<Op>)
    ensures CompletedIn(a + b) == CompletedIn(a) + CompletedIn(b)
  {
    if b == [] {
      assert a + b == a;
    } else {
      var n := |b| - 1;
      assert (a + b)[..|a + b| - 1] == a + b[..n];
      CompletedAppend(a, b[..n]);
    }
  }

  lemma {:induction false} NoneCompleted(trace: seq<Op>)
    requires forall i :: 0 <= i < |trace| ==> trace[i].Scan?
    ensures CompletedIn(trace) == []
  {
    if trace != [] {
      NoneCompleted(trace[..|trace| - 1]);
    }
  }

  lemma {:induction false} AllCompleted(trace: seq<Op>, page: seq<CommittedNote>)
    requires |trace| <= |page| && forall i :: 0 <= i < |trace| ==> trace[i] == Complete(page[i])
    ensures CompletedIn(trace) == page[..|trace|]
  {
    if trace != [] {
      var n := |trace| - 1;
      AllCompleted(trace[..n], page);
      assert page[..n] + [page[n]] == page[..|trace|];
    }
  }

  lemma {:induction false} CandidateStaysFirst(a: seq<Op>, b: seq<Op>, q: nat)
    requires q < |a| && CandidateFirst(a, q)
    ensures CandidateFirst(a + b, q)
  {
    if a[q].Complete? && a[q].event.scan.Some? {
      var p :| 0 <= p < q && a[p].Scan? && a[p].candidate == a[q].event.scan.value;
      assert (a + b)[p] == a[p];
    }
  }

  lemma {:induction false} ScansCompleteNothing(trace: seq<Op>, events: seq<CommittedNote>,
                                                scanned: seq<Op>, notes: seq<PendingNote>)
    requires Completes(trace, events) && Judges(scanned, notes)
    ensures Completes(trace + scanned, events)
  {
    CompletedAppend(trace, scanned);
    NoneCompleted(scanned);
    hide CompletedIn, CandidateFirst;
    forall q | 0 <= q < |trace + scanned| ensures CandidateFirst(trace + scanned, q) {
      if q < |trace| {
        CandidateStaysFirst(trace, scanned, q);
      } else {
        JudgedIsNoCompletion(trace, scanned, notes, q);
      }
    }
  }

  lemma {:induction false} JudgedIsNoCompletion(trace: seq<Op>, scanned: seq<Op>, notes: seq<PendingNote>, q: nat)
    requires Judges(scanned, notes) && |trace| <= q < |trace + scanned|
    ensures CandidateFirst(trace + scanned, q)
  {
    assert (trace + scanned)[q] == scanned[q - |trace|];
  }

  lemma {:induction false} CandidateOfThePage(page: seq<CommittedNote>, i: nat) returns (p: nat)
    requires i < |page| && page[i].scan.Some?
    ensures p < |Candidates(page)| && Candidates(page)[p] == page[i].scan.value
    decreases |page|
  {
    if i < |page| - 1 {
      p := CandidateOfThePage(page[..|page| - 1], i);
    } else {
      p := |Candidates(page)| - 1;
    }
  }

  lemma {:induction false} PageCompletes(before: seq<Op>, events: seq<CommittedNote>, scanned: seq<Op>,
                                         page: seq<CommittedNote>, completed: seq<Op>)
    requires Completes(before + scanned, events) && Judges(scanned, Candidates(page))
    requires |completed| <= |page| && forall i :: 0 <= i < |completed| ==> completed[i] == Complete(page[i])
    ensures Completes(before + scanned + completed, events + page[..|completed|])
  {
    var trace := before + scanned;
    CompletedAppend(trace, completed);
    AllCompleted(completed, page);
    hide CompletedIn, CandidateFirst, Judges;
    forall q | 0 <= q < |trace + completed| ensures CandidateFirst(trace + completed, q) {
      if q < |trace| {
        CandidateStaysFirst(trace, completed, q);
      } else {
        CompletionAfterItsCandidate(before, scanned, page, completed, q - |trace|);
      }
    }
  }

  /** The first `m` of `events` are final, and the trace records exactly their completions. */
  ghost predicate CompletedRun(trace: seq<Op>, events: seq<CommittedNote>, m: nat, finalizedThrough: nat) {
    m <= |events| && Completes(trace, events[..m]) && forall i :: 0 <= i < m ==> events[i].block <= finalizedThrough
  }

  /** Whatever stopped the traversal, it has recorded a run of final completions from the start. */
  ghost predicate CompletesAStart(trace: seq<Op>, events: seq<CommittedNote>, finalizedThrough: nat) {
    exists m :: CompletedRun(trace, events, m, finalizedThrough)
  }

  lemma {:induction false} RunBegins(events: seq<CommittedNote>, finalizedThrough: nat)
    ensures CompletedRun([], events, 0, finalizedThrough)
  {
    assert events[..0] == [];
  }

  lemma {:induction false} RunCompletes(trace: seq<Op>, events: seq<CommittedNote>, m: nat, finalizedThrough: nat)
    requires CompletedRun(trace, events, m, finalizedThrough)
    ensures m <= |events| && Completes(trace, events[..m]) && forall i :: 0 <= i < m ==>
              events[i].block <= finalizedThrough
  {}

  lemma {:induction false} RunGrows(trace: seq<Op>, events: seq<CommittedNote>, m: nat, finalizedThrough: nat,
                                    page: seq<CommittedNote>, made: seq<Op>, completed: nat)
    requires CompletedRun(trace, events, m, finalizedThrough) && m + |page| <= |events| && page == events[m..m + |page|]
    requires completed <= |page| && Completes(trace + made, events[..m] + page[..completed])
    requires forall i :: 0 <= i < completed ==> page[i].block <= finalizedThrough
    ensures CompletedRun(trace + made, events, m + completed, finalizedThrough)
    ensures completed < |page| ==> events[m + completed] == page[completed]
  {
    hide Completes;
    assert events[..m] + page[..completed] == events[..m + completed];
    forall i | 0 <= i < m + completed ensures events[i].block <= finalizedThrough {
      if i >= m {
        assert events[i] == page[i - m];
      }
    }
  }

  lemma {:induction false} CompletionAfterItsCandidate(before: seq<Op>, scanned: seq<Op>,
                                                       page: seq<CommittedNote>, completed: seq<Op>, i: nat)
    requires Judges(scanned, Candidates(page)) && i < |completed| <= |page| && completed[i] == Complete(page[i])
    ensures CandidateFirst(before + scanned + completed, |before + scanned| + i)
  {
    var trace := before + scanned + completed;
    if page[i].scan.Some? {
      var p := CandidateOfThePage(page, i);
      hide Candidates;
      assert trace[|before| + p] == scanned[p];
      assert trace[|before + scanned| + i] == completed[i];
    }
  }

  lemma {:induction false} FinalPrefixIs(events: seq<CommittedNote>, m: nat, finalizedThrough: nat)
    requires m <= |events| && (forall i :: 0 <= i < m ==> events[i].block <= finalizedThrough)
    requires m == |events| || events[m].block > finalizedThrough
    ensures FinalPrefix(events, finalizedThrough) == events[..m]
  {
    if m > 0 {
      FinalPrefixIs(events[1..], m - 1, finalizedThrough);
      assert events[..m] == [events[0]] + events[1..][..m - 1];
    }
  }

  lemma {:induction false} PendingLeavesCommittedCursor(l: Ledger, trace: seq<Op>, notes: seq<PendingNote>)
    requires Judges(trace, notes)
    ensures ApplyAll(l, trace).committedCursor == l.committedCursor
  {
    if trace != [] {
      var n := |trace| - 1;
      PendingLeavesCommittedCursor(l, trace[..n], notes[..n]);
    }
  }

  // ---------------------------------------------------------------------------------------------
  // What a finished replay has achieved
  // ---------------------------------------------------------------------------------------------

  /** A note's secrets open it for one allocation only. */
  ghost predicate OneOwner(trace: seq<Op>) {
    forall i, j :: 0 <= i < |trace| && 0 <= j < |trace| && trace[i].Scan? && trace[j].Scan?
                   && trace[i].candidate.note == trace[j].candidate.note
                   && trace[i].candidate.owner.Some? && trace[j].candidate.owner.Some? ==>
                     trace[i].candidate.owner == trace[j].candidate.owner
  }

  /** `id` was watched whenever a candidate was judged. */
  ghost predicate WatchedThroughout(trace: seq<Op>, id: AllocationId) {
    forall i :: 0 <= i < |trace| && trace[i].Scan? ==> id in trace[i].watched
  }

  ghost predicate ScannedFor(trace: seq<Op>, p: nat, id: AllocationId, note: NoteId) {
    p < |trace| && trace[p].Scan? && trace[p].candidate.note == note && trace[p].candidate.owner == Some(id)
    && !trace[p].candidate.malformed && id in trace[p].watched
  }

  /** From its scan on, the ledger knows the note as owned by `id`. */
  lemma {:induction false} KnownFromItsScan(l: Ledger, trace: seq<Op>, p: nat, id: AllocationId, note: NoteId)
    requires OneOwner(trace) && ScannedFor(trace, p, id, note)
    ensures KnownOwner(ApplyAll(l, trace), note) == Some(id)
    decreases |trace|
  {
    var n := |trace| - 1;
    if p < n {
      OneOwnerPrefix(trace, n);
      KnownFromItsScan(l, trace[..n], p, id, note);
      KnownStays(ApplyAll(l, trace[..n]), trace, n, p, id, note);
    }
  }

  lemma {:induction false} OneOwnerPrefix(trace: seq<Op>, n: nat)
    requires OneOwner(trace) && n <= |trace|
    ensures OneOwner(trace[..n])
  {}

  lemma {:induction false} KnownStays(l: Ledger, trace: seq<Op>, n: nat, p: nat, id: AllocationId, note: NoteId)
    requires OneOwner(trace) && ScannedFor(trace, p, id, note) && n < |trace|
    requires KnownOwner(l, note) == Some(id)
    ensures KnownOwner(Apply(l, trace[n]), note) == Some(id)
  {}

  /** A completion that comes after its note's scan commits the note, and it stays committed. */
  lemma {:induction false} ScanThenComplete(l: Ledger, trace: seq<Op>, p: nat, q: nat, id: AllocationId, note: NoteId)
    requires OneOwner(trace) && ScannedFor(trace, p, id, note)
    requires p < q < |trace| && trace[q].Complete? && trace[q].event.note == note && !trace[q].event.malformed
    ensures Committed(ApplyAll(l, trace), id, note)
  {
    OneOwnerPrefix(trace, q);
    KnownFromItsScan(l, trace[..q], p, id, note);
    assert trace == trace[..q] + [trace[q]] + trace[q + 1..];
    ApplyAppend(l, trace[..q] + [trace[q]], trace[q + 1..]);
    ApplyAppend(l, trace[..q], [trace[q]]);
    assert ApplyAll(ApplyAll(l, trace[..q]), [trace[q]]) == Apply(ApplyAll(l, trace[..q]), trace[q]) by {
      assert [trace[q]][..0] == [];
    }
    hide OneOwner, ApplyAll;
    CommittedStays(Apply(ApplyAll(l, trace[..q]), trace[q]), trace[q + 1..], id, note);
  }

  lemma {:induction false} CompletedAt(trace: seq<Op>, e: CommittedNote) returns (q: nat)
    requires e in CompletedIn(trace)
    ensures q < |trace| && trace[q] == Complete(e)
  {
    var n := |trace| - 1;
    if trace[n] == Complete(e) {
      q := n;
    } else {
      q := CompletedAt(trace[..n], e);
    }
  }

  lemma {:induction false} FinalEventsAreInThePrefix(events: seq<CommittedNote>, finalizedThrough: nat, i: nat)
    requires i < |events| && events[i].block <= finalizedThrough
    requires forall a, b :: 0 <= a < b < |events| ==> events[a].block <= events[b].block
    ensures events[i] in FinalPrefix(events, finalizedThrough)
  {
    if i > 0 {
      assert events[0].block <= events[i].block;
      FinalEventsAreInThePrefix(events[1..], finalizedThrough, i - 1);
      assert events[1..][i - 1] == events[i];
    }
  }

  /** A replay pass that finished, with `id` watched throughout and for any page size, has committed in
      the ledger every note of `id` that was served, as pending or with its completion, and whose completion
      is final. */
  lemma {:induction false} FinishedReplayCommitsEveryDeposit(pending: seq<PendingNote>, committed: seq<CommittedNote>,
                                                             finalizedThrough: nat, l: Ledger, pendingTrace: seq<Op>,
                                                             committedTrace: seq<Op>, id: AllocationId,
                                                             n: PendingNote, e: CommittedNote)
    requires BlocksAscend(committed) && Judges(pendingTrace, pending)
    requires Completes(committedTrace, FinalPrefix(committed, finalizedThrough))
    requires OneOwner(pendingTrace + committedTrace) && WatchedThroughout(pendingTrace + committedTrace, id)
    requires e in committed && e.block <= finalizedThrough && !e.malformed
    requires n.note == e.note && n.owner == Some(id) && !n.malformed
    requires n in pending || e.scan == Some(n)
    ensures Committed(ApplyAll(l, pendingTrace + committedTrace), id, e.note)
  {
    var trace := pendingTrace + committedTrace;
    hide FinalPrefix, BlocksAscend, ApplyAll, OneOwner, CompletedIn, Completes, CandidateFirst;
    var q := CompletionOfTheEvent(committedTrace, committed, finalizedThrough, e);
    var p := ScanOfTheNote(pending, pendingTrace, committedTrace, q, n, e);
    hide Judges;
    assert trace[|pendingTrace| + q] == committedTrace[q];
    ScanThenComplete(l, trace, p, |pendingTrace| + q, id, e.note);
  }

  /** A final event of a finished second phase was completed, after its own candidate. */
  lemma {:induction false} CompletionOfTheEvent(trace: seq<Op>, committed: seq<CommittedNote>,
                                                finalizedThrough: nat, e: CommittedNote) returns (q: nat)
    requires BlocksAscend(committed) && Completes(trace, FinalPrefix(committed, finalizedThrough))
    requires e in committed && e.block <= finalizedThrough
    ensures q < |trace| && trace[q] == Complete(e) && CandidateFirst(trace, q)
  {
    var i :| 0 <= i < |committed| && committed[i] == e;
    FinalEventsAreInThePrefix(committed, finalizedThrough, i);
    hide FinalPrefix, BlocksAscend;
    q := CompletedAt(trace, e);
    hide CompletedIn;
  }

  /** A note served as pending is scanned in the first phase; one served with its completion is scanned
      before that completion is recorded. */
  lemma {:induction false} ScanOfTheNote(pending: seq<PendingNote>, pendingTrace: seq<Op>,
                                         committedTrace: seq<Op>, q: nat, n: PendingNote, e: CommittedNote)
    returns (p: nat)
    requires Judges(pendingTrace, pending) && q < |committedTrace| && committedTrace[q] == Complete(e)
    requires CandidateFirst(committedTrace, q)
    requires n in pending || e.scan == Some(n)
    ensures p < |pendingTrace| + q
    ensures var trace := pendingTrace + committedTrace; trace[p].Scan? && trace[p].candidate == n
  {
    if n in pending {
      p :| p < |pending| && pending[p] == n;
    } else {
      var p' :| 0 <= p' < q && committedTrace[p'].Scan? && committedTrace[p'].candidate == n;
      p := |pendingTrace| + p';
    }
  }

  // ---------------------------------------------------------------------------------------------
  // What that means for the watcher
  // ---------------------------------------------------------------------------------------------

  ghost predicate WatchedAlways(env: Environment, from: nat, to: nat, id: AllocationId) {
    forall k :: from <= k < to ==> id in env.watchedAt(k)
  }

  /** An allocation watched at every interaction was watched at every scan. */
  lemma {:induction false} LooksWatch(trace: seq<Op>, env: Environment, from: nat, to: nat, id: AllocationId)
    requires Looks(trace, env, from, to) && WatchedAlways(env, from, to, id)
    ensures WatchedThroughout(trace, id)
  {
    forall i | 0 <= i < |trace| && trace[i].Scan? ensures id in trace[i].watched {
      assert LooksAt(trace[i], env, from, to);
    }
  }

  predicate CandidateServed(env: Environment, at: ReadAt, c: PendingNote) {
    c in env.indexAt(at.pending).pending || ServedWith(c, env.indexAt(at.committed).committed)
  }

  /** A served note's secrets open it for one allocation only. */
  ghost predicate OneOwnerServed(env: Environment, at: ReadAt) {
    forall a, b :: CandidateServed(env, at, a) && CandidateServed(env, at, b) && SameOwnedNote(a, b) ==>
                     a.owner == b.owner
  }

  predicate SameOwnedNote(a: PendingNote, b: PendingNote) { a.note == b.note && a.owner.Some? && b.owner.Some? }

  lemma {:induction false} TraceHasOneOwner(env: Environment, at: ReadAt,
                                            pendingTrace: seq<Op>, committedTrace: seq<Op>)
    requires OneOwnerServed(env, at) && Judges(pendingTrace, env.indexAt(at.pending).pending)
    requires ScansServed(committedTrace, env.indexAt(at.committed).committed)
    ensures OneOwner(pendingTrace + committedTrace)
  {
    var trace := pendingTrace + committedTrace;
    hide ServedWith;
    forall i | 0 <= i < |trace| && trace[i].Scan? ensures CandidateServed(env, at, trace[i].candidate) {
      if i < |pendingTrace| {
        assert trace[i].candidate == env.indexAt(at.pending).pending[i];
      } else {
        assert trace[i] == committedTrace[i - |pendingTrace|];
      }
    }
    hide CandidateServed;
  }

  /** The event lies behind the cursor, and so deep below the indexed head that the chain cannot take it back any
      more, or in block zero while the head is not deep enough. */
  ghost predicate DueAndFinal(e: CommittedNote, head: Index, cursor: Option<nat>) {
    (cursor.None? || e.at > cursor.value) && (e.block + head.finality <= head.head || e.block == 0)
  }

  /** What a traversal of the pending notes judges: notes behind the cursor only, or any of a snapshot, each once and
      in the order served, and all of them if the traversal finished. */
  ghost predicate JudgesTheDue(trace: seq<Op>, index: Index, cursor: Option<nat>, finished: bool) {
    && (forall i :: 0 <= i < |trace| ==>
          trace[i].Scan? && trace[i].candidate in index.pending && DueAt(trace[i].candidate, index, cursor))
    && (finished ==> forall n :: n in index.pending && DueAt(n, index, cursor) ==>
          exists i :: 0 <= i < |trace| && trace[i].Scan? && trace[i].candidate == n)
    && (forall i, j :: 0 <= i < j < |trace| && trace[i].Scan? && trace[j].Scan? ==>
          trace[i].candidate.at < trace[j].candidate.at)
  }

  ghost predicate DueAt(n: PendingNote, index: Index, cursor: Option<nat>) {
    index.snapshot || cursor.None? || n.at > cursor.value
  }

  lemma {:induction false} NothingJudged(index: Index, cursor: Option<nat>)
    ensures JudgesTheDue([], index, cursor, false)
  {}

  lemma {:induction false} PendingWorkIs(index: Index, cursor: Option<nat>) returns (m: nat)
    requires ValidIndex(index)
    ensures m <= |index.pending| && PendingWork(index, cursor) == index.pending[m..]
    ensures forall i :: 0 <= i < |index.pending| ==> (i >= m <==> DueAt(index.pending[i], index, cursor))
  {
    m := 0;
    if !index.snapshot {
      m := AfterIsASuffix(index.pending, PENDING_AT, cursor);
    }
    hide After;
    forall i | 0 <= i < |index.pending| ensures i >= m <==> DueAt(index.pending[i], index, cursor) {
      if i < m {
        AscendingPair(index.pending, PENDING_AT, i, m - 1);
      } else {
        AscendingPair(index.pending, PENDING_AT, m, i);
      }
    }
  }

  lemma {:induction false} TraversalJudgesTheDue(index: Index, cursor: Option<nat>, trace: seq<Op>, finished: bool)
    requires ValidIndex(index)
    requires var work := PendingWork(index, cursor);
             && |trace| <= |work| && Judges(trace, work[..|trace|]) && (finished ==> Judges(trace, work))
    ensures JudgesTheDue(trace, index, cursor, finished) && JudgesTheDue(trace, index, cursor, false)
  {
    var m := PendingWorkIs(index, cursor);
    hide PendingWork, BlocksAscend;
    forall i, j | 0 <= i < j < |trace| ensures trace[i].candidate.at < trace[j].candidate.at {
      AscendingPair(index.pending, PENDING_AT, m + i, m + j);
    }
    if finished {
      forall n | n in index.pending && DueAt(n, index, cursor)
        ensures exists i :: 0 <= i < |trace| && trace[i].Scan? && trace[i].candidate == n
      {
        var k :| 0 <= k < |index.pending| && index.pending[k] == n;
        assert trace[k - m].candidate == n;
      }
    }
  }

  /** What a traversal of the completions behind `cursor` records: final ones only, each once and in the order
      served, and all of them if the traversal finished. */
  ghost predicate RecordsTheFinal(trace: seq<Op>, index: Index, head: Index, cursor: Option<nat>, finished: bool) {
    var done := CompletedIn(trace);
    && (forall e :: e in done ==> e in index.committed && DueAndFinal(e, head, cursor))
    && (finished ==> forall e :: e in index.committed && DueAndFinal(e, head, cursor) ==> e in done)
    && (forall i, j :: 0 <= i < j < |done| ==> done[i].at < done[j].at)
  }

  lemma {:induction false} TraversalRecordsTheFinal(index: Index, head: Index, cursor: Option<nat>, trace: seq<Op>,
                                                    finished: bool)
    requires ValidIndex(index)
    requires var work := CommittedWork(index, cursor);
             && CompletesAStart(trace, work, FinalizedThrough(head))
             && (finished ==> Completes(trace, FinalPrefix(work, FinalizedThrough(head))))
    ensures RecordsTheFinal(trace, index, head, cursor, finished)
  {
    hide After, FinalPrefix, CompletedIn, CompletesAStart, Completes, Ascending, BlocksAscend, DueAndFinal;
    var m := AfterIsASuffix(index.committed, COMMITTED_AT, cursor);
    var work := CommittedWork(index, cursor);
    var n := RunIsAPrefix(trace, work, FinalizedThrough(head));
    assert work[..n] == index.committed[m..m + n];
    SliceIsDue(index, head, cursor, m, n);
    if finished {
      CompletesExactly(trace, FinalPrefix(work, FinalizedThrough(head)));
      AllFinalRecorded(index, head, cursor, m);
    }
  }

  lemma {:induction false} CompletesExactly(trace: seq<Op>, events: seq<CommittedNote>)
    requires Completes(trace, events)
    ensures CompletedIn(trace) == events
  {}

  lemma {:induction false} SliceIsDue(index: Index, head: Index, cursor: Option<nat>, m: nat, n: nat)
    requires ValidIndex(index) && m + n <= |index.committed|
    requires m < |index.committed| && cursor.Some? ==> cursor.value < index.committed[m].at
    requires forall e :: e in index.committed[m..m + n] ==> e.block <= FinalizedThrough(head)
    ensures var done := index.committed[m..m + n];
            && (forall e :: e in done ==> e in index.committed && DueAndFinal(e, head, cursor))
            && (forall i, j :: 0 <= i < j < |done| ==> done[i].at < done[j].at)
  {
    var done := index.committed[m..m + n];
    forall e | e in done ensures e in index.committed && DueAndFinal(e, head, cursor) {
      var i :| 0 <= i < n && done[i] == e;
      AscendingPair(index.committed, COMMITTED_AT, m, m + i);
    }
    forall i, j | 0 <= i < j < |done| ensures done[i].at < done[j].at {
      AscendingPair(index.committed, COMMITTED_AT, m + i, m + j);
    }
  }

  lemma {:induction false} RunIsAPrefix(trace: seq<Op>, events: seq<CommittedNote>, through: nat) returns (n: nat)
    requires CompletesAStart(trace, events, through)
    ensures n <= |events| && CompletedIn(trace) == events[..n]
    ensures forall e :: e in CompletedIn(trace) ==> e.block <= through
  {
    n :| CompletedRun(trace, events, n, through);
    hide CompletedIn;
  }

  lemma {:induction false} AllFinalRecorded(index: Index, head: Index, cursor: Option<nat>, m: nat)
    requires ValidIndex(index) && m <= |index.committed| && CommittedWork(index, cursor) == index.committed[m..]
    requires m > 0 ==> cursor.Some? && index.committed[m - 1].at <= cursor.value
    ensures forall e :: e in index.committed && DueAndFinal(e, head, cursor) ==>
              e in FinalPrefix(CommittedWork(index, cursor), FinalizedThrough(head))
  {
    hide After, FinalPrefix;
    forall e | e in index.committed && DueAndFinal(e, head, cursor)
      ensures e in FinalPrefix(CommittedWork(index, cursor), FinalizedThrough(head))
    {
      var i :| 0 <= i < |index.committed| && index.committed[i] == e;
      if m > 0 {
        AscendingPair(index.committed, COMMITTED_AT, Min(i, m - 1), m - 1);
      }
      assert i >= m;
      assert index.committed[m..][i - m] == e;
      FinalIsRecorded(index.committed[m..], FinalizedThrough(head), i - m);
    }
  }

  lemma {:induction false} FinalIsRecorded(events: seq<CommittedNote>, through: nat, i: nat)
    requires i < |events| && BlocksAscend(events) && events[i].block <= through
    ensures events[i] in FinalPrefix(events, through)
  {
    FinalEventsAreInThePrefix(events, through, i);
  }

  /** `n` is a deposit to `id` that was served by then, and so was its completion `e`, which was final. */
  predicate SettledDeposit(env: Environment, at: ReadAt, id: AllocationId, n: PendingNote, e: CommittedNote) {
    && e in env.indexAt(at.committed).committed && !e.malformed
    && (e.block + env.indexAt(at.head).finality <= env.indexAt(at.head).head || e.block == 0)
    && n.note == e.note && n.owner == Some(id) && !n.malformed
    && (n in env.indexAt(at.pending).pending || e.scan == Some(n))
  }

  ghost predicate DepositsCommitted(l: Ledger, env: Environment, at: ReadAt, id: AllocationId) {
    forall n, e :: SettledDeposit(env, at, id, n, e) ==> Committed(l, id, e.note)
  }

  lemma {:induction false} ReplayWhileWatched(env: Environment, at: ReadAt, l: Ledger, pendingTrace: seq<Op>,
                                              committedTrace: seq<Op>, from: nat, to: nat)
    requires ValidIndex(env.indexAt(at.committed)) && Judges(pendingTrace, env.indexAt(at.pending).pending)
    requires Completes(committedTrace, FinalSeen(env, at))
    requires ScansServed(committedTrace, env.indexAt(at.committed).committed)
    requires Looks(pendingTrace + committedTrace, env, from, to) && OneOwnerServed(env, at)
    ensures forall id :: WatchedAlways(env, from, to, id) ==>
                           DepositsCommitted(ApplyAll(l, pendingTrace + committedTrace), env, at, id)
  {
    TraceHasOneOwner(env, at, pendingTrace, committedTrace);
    var trace := pendingTrace + committedTrace;
    hide Judges, Completes, ScansServed, OneOwnerServed, OneOwner, Looks, WatchedAlways, FinalPrefix, ApplyAll,
      Ascending, WatchedThroughout, Committed, BlocksAscend, FinalizedThrough;
    forall id, n, e | WatchedAlways(env, from, to, id) && SettledDeposit(env, at, id, n, e)
      ensures Committed(ApplyAll(l, trace), id, e.note)
    {
      LooksWatch(trace, env, from, to, id);
      FinishedReplayCommitsEveryDeposit(env.indexAt(at.pending).pending, env.indexAt(at.committed).committed,
                                        FinalizedThrough(env.indexAt(at.head)), l, pendingTrace, committedTrace,
                                        id, n, e);
    }
  }

  // ---------------------------------------------------------------------------------------------
  // What the next pass finds
  // ---------------------------------------------------------------------------------------------

  /** The last candidate the trace judges. */
  function LastScan(trace: seq<Op>): Option<PendingNote> {
    if trace == [] then None
    else
      var last := trace[|trace| - 1];
      if last.Scan? then Some(last.candidate) else LastScan(trace[..|trace| - 1])
  }

  /** The pending cursor stands at the last candidate judged, whichever phase judged it. */
  lemma {:induction false} CursorIsTheLastScan(l: Ledger, trace: seq<Op>)
    ensures ApplyAll(l, trace).pendingCursor
         == if LastScan(trace).Some? then Some(LastScan(trace).value.at) else l.pendingCursor
  {
    if trace != [] {
      CursorIsTheLastScan(l, trace[..|trace| - 1]);
    }
  }

  /** What one pass leaves pending for the next. */
  function LeftPending(later: Index, cursor: Option<nat>, judged: nat): seq<PendingNote>
    requires judged <= |PendingWork(later, cursor)|
  {
    PendingWork(later, cursor)[judged..]
  }

  lemma {:induction false} LeftIsASuffix(later: Index, cursor: Option<nat>, judged: nat) returns (k: nat)
    requires !later.snapshot && judged <= |PendingWork(later, cursor)|
    ensures k <= |later.pending| && LeftPending(later, cursor, judged) == later.pending[k..]
  {
    var m := AfterIsASuffix(later.pending, PENDING_AT, cursor);
    hide After;
    k := m + judged;
    assert later.pending[m..][judged..] == later.pending[k..];
  }

  lemma {:induction false} LastJudged(trace: seq<Op>, notes: seq<PendingNote>)
    requires Judges(trace, notes) && trace != []
    ensures LastScan(trace) == Some(notes[|trace| - 1])
  {}

  /** The first phase alone leaves the cursor right behind the last note it judged. */
  lemma {:induction false} FirstPhaseResumes(index: Index, later: Index, l: Ledger, cursor: Option<nat>, trace: seq<Op>)
    requires ValidIndex(later) && !index.snapshot && !later.snapshot && index.pending <= later.pending
    requires |trace| <= |PendingWork(index, cursor)| && Judges(trace, PendingWork(index, cursor)[..|trace|])
    requires trace != [] || l.pendingCursor == cursor
    ensures |trace| <= |PendingWork(later, cursor)|
    ensures PendingWork(later, ApplyAll(l, trace).pendingCursor) == LeftPending(later, cursor, |trace|)
  {
    var n := |trace|;
    if n > 0 {
      CursorIsTheLastScan(l, trace);
      LastJudged(trace, PendingWork(index, cursor)[..n]);
      BehindGrows(index.pending, later.pending, PENDING_AT, cursor, n);
      hide After, ApplyAll, LastScan, Judges;
      assert PendingWork(later, cursor)[..n][n - 1] == PendingWork(later, cursor)[n - 1];
      AfterEvent(later.pending, PENDING_AT, cursor, n - 1);
    } else {
      DropNothing(PendingWork(later, cursor));
    }
  }

  /** What the next pass over a paged index finds, exactly. It resumes right behind the last pending note
      this one judged, with everything indexed since, if and only if the second phase judged no candidate,
      or its last one stands just there in the event order. Whatever it stands past is skipped. */
  lemma {:induction false} NextPassResumes(index: Index, later: Index, l: Ledger, cursor: Option<nat>,
                                           pendingTrace: seq<Op>, committedTrace: seq<Op>)
    requires ValidIndex(later) && !index.snapshot && !later.snapshot && index.pending <= later.pending
    requires |pendingTrace| <= |PendingWork(index, cursor)|
    requires Judges(pendingTrace, PendingWork(index, cursor)[..|pendingTrace|])
    requires pendingTrace != [] || l.pendingCursor == cursor
    ensures |pendingTrace| <= |PendingWork(later, cursor)|
    ensures var left := LeftPending(later, cursor, |pendingTrace|);
            var scan := LastScan(committedTrace);
            && |left| <= |later.pending|
            && (PendingWork(later, ApplyAll(l, pendingTrace + committedTrace).pendingCursor) == left <==>
                  scan.None? || Fits(later.pending, PENDING_AT, |later.pending| - |left|, scan.value.at))
  {
    FirstPhaseResumes(index, later, l, cursor, pendingTrace);
    var k := LeftIsASuffix(later, cursor, |pendingTrace|);
    CursorIsTheLastScan(ApplyAll(l, pendingTrace), committedTrace);
    ApplyAppend(l, pendingTrace, committedTrace);
    hide After, ApplyAll, Ascending, LastScan, Judges, Fits, LeftPending;
    if LastScan(committedTrace).Some? {
      AfterFits(later.pending, PENDING_AT, k, LastScan(committedTrace).value.at);
    }
  }

  predicate NoScans(events: seq<CommittedNote>) { forall i :: 0 <= i < |events| ==> events[i].scan.None? }

  /** An index whose pending notes are complete serves no candidates with its completions, and then the
      second phase judges none. */
  lemma {:induction false} CompletePendingViewResumes(events: seq<CommittedNote>, trace: seq<Op>)
    requires ScansServed(trace, events) && NoScans(events)
    ensures LastScan(trace).None?
  {
    if trace != [] {
      var n := |trace| - 1;
      assert ScansServed(trace[..n], events) by {
        hide ServedWith;
        assert forall q :: 0 <= q < n ==> trace[..n][q] == trace[q];
      }
      CompletePendingViewResumes(events, trace[..n]);
      assert !trace[n].Scan?;
    }
  }

  /** A paged index that does serve them can move the cursor past a pending note nobody has judged. */
  lemma {:induction false} ScanMaySkipAPendingNote(first: PendingNote, second: PendingNote,
                                                   e: CommittedNote, watched: set<AllocationId>)
    requires e.scan.Some? && first.at < second.at <= e.scan.value.at
    ensures var later := Index([first, second], false, [e], e.block, 0);
            var trace := [Scan(first, watched), Scan(e.scan.value, watched), Complete(e)];
            var l := ApplyAll(Ledger(None, None, map[], map[]), trace);
            second in PendingWork(later, Some(first.at)) && second !in PendingWork(later, l.pendingCursor)
  {
    var trace := [Scan(first, watched), Scan(e.scan.value, watched), Complete(e)];
    CursorIsTheLastScan(Ledger(None, None, map[], map[]), trace);
    assert trace[..2] == [Scan(first, watched), Scan(e.scan.value, watched)];
    assert LastScan(trace) == Some(e.scan.value);
    hide ApplyAll, LastScan;
    var events := [first, second];
    assert events[1..] == [second] && events[1..][1..] == [];
    AfterSkips(events, PENDING_AT, first.at);
    AfterStops([second], PENDING_AT, first.at);
    AfterSkips(events, PENDING_AT, e.scan.value.at);
    AfterSkips([second], PENDING_AT, e.scan.value.at);
  }
}

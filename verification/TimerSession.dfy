/** One Echo's running timers and finished-alarm queue (controller/em_timers.py). */
module TimerSession {
  import opened Options

  /** Home Assistant's own timer ids, and the synthetic id of one alarm occurrence. */
  datatype TimerId = HaTimer(name: string) | AlarmTimer(alarmId: string, day: int)

  datatype Lifecycle = Started | Updated | Cancelled | Finished | Unknown

  /** A posted event; two events have one fingerprint exactly when they are equal. */
  datatype Event = Event(kind: Lifecycle, timerId: TimerId, name: Option<string>, totalSeconds: int,
                         secondsLeft: int, isActive: bool)

  datatype TimerRecord = TimerRecord(timerId: TimerId, name: Option<string>, totalSeconds: int,
                                     secondsLeft: int, isActive: bool, receivedAt: Option<real>)

  datatype Transition = Transition(accepted: bool, duplicate: bool, alarmChanged: bool)

  function FromPayload(e: Event, now: Option<real>): TimerRecord {
    TimerRecord(e.timerId, e.name, e.totalSeconds, e.secondsLeft, e.isActive, now)
  }

  predicate WellFormed(e: Event) {
    e.kind != Unknown && e.timerId != HaTimer("")
  }

  // ---- Records in order, at most one per id

  predicate Has(s: seq<TimerRecord>, id: TimerId) {
    exists i :: 0 <= i < |s| && s[i].timerId == id
  }

  function Without(s: seq<TimerRecord>, id: TimerId): (r: seq<TimerRecord>)
    ensures |r| <= |s|
    ensures forall x :: x in r <==> x in s && x.timerId != id
    ensures !Has(s, id) ==> r == s
    ensures |r| == |s| ==> r == s
  {
    if |s| == 0 then []
    else
      var rest := Without(s[1..], id);
      assert s == [s[0]] + s[1..];
      assert !Has(s, id) ==> !Has(s[1..], id);
      if s[0].timerId == id then rest else [s[0]] + rest
  }

  /** An insertion-ordered dict's assignment: in place for a present key, at the end for a new one. */
  function Put(s: seq<TimerRecord>, t: TimerRecord): (r: seq<TimerRecord>)
    ensures |r| == if Has(s, t.timerId) then |s| else |s| + 1
    ensures forall i :: 0 <= i < |s| ==> r[i].timerId == s[i].timerId
    ensures |r| > |s| ==> r[|s|] == t
  {
    if |s| == 0 then [t]
    else if s[0].timerId == t.timerId then [t] + s[1..]
    else
      assert Has(s, t.timerId) <==> Has(s[1..], t.timerId) by {
        if Has(s, t.timerId) {
          var i :| 0 <= i < |s| && s[i].timerId == t.timerId;
          assert s[1..][i - 1].timerId == t.timerId;
        }
        if Has(s[1..], t.timerId) {
          var i :| 0 <= i < |s[1..]| && s[1..][i].timerId == t.timerId;
          assert s[i + 1].timerId == t.timerId;
        }
      }
      [s[0]] + Put(s[1..], t)
  }

  predicate Distinct(s: seq<TimerRecord>) {
    forall i, j :: 0 <= i < j < |s| ==> s[i].timerId != s[j].timerId
  }

  // ---- The session as a value

  /** Running timers in start order, alarms in ring order, the last payload seen and the cancelled ids. */
  datatype Session = Session(running: seq<TimerRecord>, ring: seq<TimerRecord>,
                             lastPayload: map<TimerId, Event>, cancelled: set<TimerId>)

  const IDLE := Session([], [], map[], {})

  function ApplyEvent(s: Session, e: Event, now: Option<real>): (r: (Session, Transition)) {
    var id := e.timerId;
    if !WellFormed(e) then (s, Transition(false, false, false))
    else if id in s.lastPayload && s.lastPayload[id] == e then (s, Transition(true, true, false))
    else
      var s1 := s.(lastPayload := s.lastPayload[id := e]);
      if id in s.cancelled && e.kind != Cancelled then (s1, Transition(true, true, false))
      else Change(s1, e.kind, FromPayload(e, now))
  }

  /** What an event that is neither a repeat nor cancelled does. */
  function Change(s: Session, kind: Lifecycle, timer: TimerRecord): (r: (Session, Transition)) {
    var id := timer.timerId;
    match kind
    case Started | Updated =>
      (s.(running := Put(s.running, timer), ring := Without(s.ring, id)), Transition(true, false, Has(s.ring, id)))
    case Cancelled =>
      (s.(running := Without(s.running, id), ring := Without(s.ring, id), cancelled := s.cancelled + {id}),
       Transition(true, false, Has(s.ring, id)))
    case Finished =>
      var s2 := s.(running := Without(s.running, id));
      if |s.ring| > 0 && s.ring[0].timerId == id then (s2, Transition(true, false, false))
      else if Has(s.ring, id) then (s2, Transition(true, true, false))
      else (s2.(ring := s.ring + [timer]), Transition(true, false, true))
    case Unknown => (s, Transition(false, false, false))
  }

  function DropHead(s: Session): Session {
    if |s.ring| == 0 then s else s.(ring := s.ring[1..])
  }

  function DropAll(s: Session): Session {
    s.(ring := [])
  }

  datatype Op = Post(e: Event, now: Option<real>) | DismissHead | DismissEvery

  function Step(s: Session, op: Op): Session {
    match op
    case Post(e, now) => ApplyEvent(s, e, now).0
    case DismissHead => DropHead(s)
    case DismissEvery => DropAll(s)
  }

  function Run(s: Session, ops: seq<Op>): Session {
    if |ops| == 0 then s else Step(Run(s, ops[..|ops| - 1]), ops[|ops| - 1])
  }

  // ---- The object

  class AlarmSession {
    var running: seq<TimerRecord>
    var current: Option<TimerRecord>
    var queue: seq<TimerRecord>
    var lastPayload: map<TimerId, Event>
    var cancelled: set<TimerId>

    /** The current alarm followed by the queued ones. */
    function Ring(): seq<TimerRecord>
      reads this
    {
      if current.Some? then [current.value] + queue else queue
    }

    function Value(): Session
      reads this
    {
      Session(running, Ring(), lastPayload, cancelled)
    }

    ghost predicate Valid()
      reads this
    {
      (current.None? ==> queue == []) && Consistent(Value())
    }

    constructor ()
      ensures Valid() && Value() == IDLE
    {
      running, current, queue, lastPayload, cancelled := [], None, [], map[], {};
    }

    method Apply(e: Event, now: Option<real>) returns (t: Transition)
      requires Valid()
      modifies this
      ensures Valid() && (Value(), t) == ApplyEvent(old(Value()), e, now)
    {
      PostConsistent(Value(), e, now);
      t := Dispatch(e, now);
    }

    method Dispatch(e: Event, now: Option<real>) returns (t: Transition)
      requires (current.None? ==> queue == []) && Distinct(Ring())
      modifies this
      ensures (current.None? ==> queue == []) && (Value(), t) == ApplyEvent(old(Value()), e, now)
    {
      if !WellFormed(e) {
        return Transition(false, false, false);
      }
      var id := e.timerId;
      var timer := FromPayload(e, now);
      if id in lastPayload && lastPayload[id] == e {
        return Transition(true, true, false);
      }
      lastPayload := lastPayload[id := e];
      if id in cancelled && e.kind != Cancelled {
        return Transition(true, true, false);
      }
      t := Alter(e.kind, timer);
    }

    method Alter(kind: Lifecycle, timer: TimerRecord) returns (t: Transition)
      requires (current.None? ==> queue == []) && Distinct(Ring()) && kind != Unknown
      modifies this
      ensures (current.None? ==> queue == []) && (Value(), t) == Change(old(Value()), kind, timer)
    {
      var id := timer.timerId;
      if kind == Started || kind == Updated {
        running := Put(running, timer);
        var changed := RemoveFinished(id);
        return Transition(true, false, changed);
      }
      if kind == Cancelled {
        cancelled := cancelled + {id};
        running := Without(running, id);
        var changed := RemoveFinished(id);
        return Transition(true, false, changed);
      }
      running := Without(running, id);
      t := AddFinished(timer);
    }

    /** A finished timer joins the ring, unless it is already there. */
    method AddFinished(timer: TimerRecord) returns (t: Transition)
      requires current.None? ==> queue == []
      modifies this`current, this`queue
      ensures current.None? ==> queue == []
      ensures var ring := old(Ring());
              && Ring() == (if Has(ring, timer.timerId) then ring else ring + [timer])
              && t == if |ring| > 0 && ring[0].timerId == timer.timerId then Transition(true, false, false)
                      else if Has(ring, timer.timerId) then Transition(true, true, false)
                      else Transition(true, false, true)
    {
      HeadOrTail(current, queue, timer.timerId);
      if current.Some? && current.value.timerId == timer.timerId {
        return Transition(true, false, false);
      }
      if Has(queue, timer.timerId) {
        return Transition(true, true, false);
      }
      if current.None? {
        current := Some(timer);
      } else {
        queue := queue + [timer];
      }
      return Transition(true, false, true);
    }

    method DismissCurrent() returns (dismissed: Option<TimerRecord>)
      requires Valid()
      modifies this`current, this`queue
      ensures Valid() && Value() == DropHead(old(Value()))
      ensures dismissed == if old(Ring()) == [] then None else Some(old(Ring())[0])
    {
      if current.None? {
        return None;
      }
      dismissed := current;
      if |queue| > 0 {
        current, queue := Some(queue[0]), queue[1..];
      } else {
        current := None;
      }
      assert Ring() == old(Ring())[1..];
    }

    method DismissAll() returns (dismissed: seq<TimerRecord>)
      requires Valid()
      modifies this`current, this`queue
      ensures Valid() && Value() == DropAll(old(Value()))
      ensures dismissed == old(Ring())
    {
      dismissed := (if current.Some? then [current.value] else []) + queue;
      current, queue := None, [];
    }

    method RemoveFinished(id: TimerId) returns (changed: bool)
      requires (current.None? ==> queue == []) && Distinct(Ring())
      modifies this`current, this`queue
      ensures (current.None? ==> queue == []) && Ring() == Without(old(Ring()), id)
      ensures changed <==> Has(old(Ring()), id)
    {
      HeadOrTail(current, queue, id);
      changed := false;
      ghost var before := Ring();
      if current.Some? && current.value.timerId == id {
        HeadGone(before, id);
        assert before[1..] == queue;
        if |queue| > 0 {
          current, queue := Some(queue[0]), queue[1..];
        } else {
          current := None;
        }
        changed := true;
        assert Ring() == before[1..];
        HeadOrTail(current, queue, id);
      } else if current.Some? {
        assert before[1..] == queue;
      }
      var size := |queue|;
      queue := Without(queue, id);
      changed := changed || |queue| != size;
    }
  }

  /** Dropping the head of a ring that starts with the id leaves nothing of that id. */
  lemma HeadGone(ring: seq<TimerRecord>, id: TimerId)
    requires Distinct(ring) && |ring| > 0 && ring[0].timerId == id
    ensures !Has(ring[1..], id) && Without(ring, id) == ring[1..]
  {
    assert forall i :: 0 <= i < |ring[1..]| ==> ring[1..][i] == ring[i + 1];
  }

  lemma HeadOrTail(current: Option<TimerRecord>, queue: seq<TimerRecord>, id: TimerId)
    ensures var ring := if current.Some? then [current.value] + queue else queue;
            Has(ring, id) <==> (current.Some? && current.value.timerId == id) || Has(queue, id)
  {
    var ring := if current.Some? then [current.value] + queue else queue;
    if current.Some? {
      if Has(queue, id) {
        var i :| 0 <= i < |queue| && queue[i].timerId == id;
        assert ring[i + 1].timerId == id;
      }
      assert ring[0] == current.value;
    }
  }

  // ---- What every run keeps

  ghost predicate Apart(s: seq<TimerRecord>, t: seq<TimerRecord>) {
    forall x, y :: x in s && y in t ==> x.timerId != y.timerId
  }

  ghost predicate NoneIn(s: seq<TimerRecord>, ids: set<TimerId>) {
    forall x :: x in s ==> x.timerId !in ids
  }

  /** Ids are distinct in each list, no timer both runs and rings, no cancelled id does either. */
  ghost predicate Consistent(s: Session) {
    && Distinct(s.running) && Distinct(s.ring) && Apart(s.running, s.ring)
    && NoneIn(s.running, s.cancelled) && NoneIn(s.ring, s.cancelled)
  }

  lemma {:induction false} WithoutDistinct(s: seq<TimerRecord>, id: TimerId)
    requires Distinct(s)
    ensures Distinct(Without(s, id))
  {
    if |s| > 0 {
      WithoutDistinct(s[1..], id);
      var rest := Without(s[1..], id);
      forall j | 0 <= j < |rest| ensures rest[j].timerId != s[0].timerId {
        assert rest[j] in s[1..];
      }
    }
  }

  lemma {:induction false} PutMembers(s: seq<TimerRecord>, t: TimerRecord)
    ensures forall x :: x in Put(s, t) ==> x == t || x in s
  {
    if |s| > 0 && s[0].timerId != t.timerId {
      PutMembers(s[1..], t);
    }
  }

  lemma PutDistinct(s: seq<TimerRecord>, t: TimerRecord)
    requires Distinct(s)
    ensures Distinct(Put(s, t))
  {
    var r := Put(s, t);
    forall i, j | 0 <= i < j < |r| ensures r[i].timerId != r[j].timerId {
      if j == |s| {
        assert s[i].timerId == r[i].timerId;
      }
    }
  }

  lemma StartedConsistent(s: Session, t: TimerRecord)
    requires Consistent(s) && t.timerId !in s.cancelled
    ensures Consistent(s.(running := Put(s.running, t), ring := Without(s.ring, t.timerId)))
  {
    WithoutDistinct(s.ring, t.timerId);
    PutDistinct(s.running, t);
    PutMembers(s.running, t);
  }

  lemma CancelledConsistent(s: Session, id: TimerId)
    requires Consistent(s)
    ensures Consistent(s.(running := Without(s.running, id), ring := Without(s.ring, id),
                          cancelled := s.cancelled + {id}))
  {
    WithoutDistinct(s.running, id);
    WithoutDistinct(s.ring, id);
  }

  lemma FinishedConsistent(s: Session, t: TimerRecord)
    requires Consistent(s) && t.timerId !in s.cancelled
    ensures Consistent(s.(running := Without(s.running, t.timerId)))
    ensures !Has(s.ring, t.timerId) ==> Consistent(s.(running := Without(s.running, t.timerId), ring := s.ring + [t]))
  {
    WithoutDistinct(s.running, t.timerId);
    if !Has(s.ring, t.timerId) {
      forall i | 0 <= i < |s.ring| ensures s.ring[i].timerId != t.timerId {
      }
    }
  }

  lemma PostConsistent(s: Session, e: Event, now: Option<real>)
    requires Consistent(s)
    ensures Consistent(ApplyEvent(s, e, now).0)
  {
    if e.timerId !in s.cancelled {
      StartedConsistent(s, FromPayload(e, now));
      FinishedConsistent(s, FromPayload(e, now));
    }
    CancelledConsistent(s, e.timerId);
  }

  lemma StepConsistent(s: Session, op: Op)
    requires Consistent(s)
    ensures Consistent(Step(s, op))
  {
    match op
    case Post(e, now) => PostConsistent(s, e, now);
    case DismissHead =>
    case DismissEvery =>
  }

  /** Over every sequence of events and dismissals the session stays consistent, and a cancelled id
      never runs, rings or comes back. */
  lemma {:induction false} RunConsistent(ops: seq<Op>)
    ensures Consistent(Run(IDLE, ops))
  {
    if |ops| > 0 {
      RunConsistent(ops[..|ops| - 1]);
      StepConsistent(Run(IDLE, ops[..|ops| - 1]), ops[|ops| - 1]);
    }
  }

  lemma {:induction false} CancellationAbsorbs(s: Session, ops: seq<Op>, id: TimerId)
    requires Consistent(s) && id in s.cancelled
    ensures var s' := Run(s, ops); id in s'.cancelled && !Has(s'.running, id) && !Has(s'.ring, id)
    ensures Consistent(Run(s, ops))
  {
    if |ops| > 0 {
      CancellationAbsorbs(s, ops[..|ops| - 1], id);
      StepConsistent(Run(s, ops[..|ops| - 1]), ops[|ops| - 1]);
    }
    var s' := Run(s, ops);
    assert id in s'.cancelled;
    assert forall i :: 0 <= i < |s'.running| ==> s'.running[i] in s'.running;
    assert forall i :: 0 <= i < |s'.ring| ==> s'.ring[i] in s'.ring;
  }

  // ---- The first-started timer

  predicate IsRunning(s: Session, id: TimerId) {
    Has(s.running, id)
  }

  /** The position in the run at which a running timer last entered the running set. */
  function Entered(ops: seq<Op>, id: TimerId): (n: nat)
    ensures n <= |ops|
  {
    if |ops| == 0 then 0
    else
      var earlier := ops[..|ops| - 1];
      if IsRunning(Run(IDLE, earlier), id) then Entered(earlier, id) else |ops|
  }

  /** The listed timers have increasing positions. */
  ghost predicate Ordered(at: TimerId -> nat, s: seq<TimerRecord>) {
    forall i, j :: 0 <= i < j < |s| ==> at(s[i].timerId) < at(s[j].timerId)
  }

  lemma {:induction false} WithoutOrdered(at: TimerId -> nat, s: seq<TimerRecord>, id: TimerId)
    requires Ordered(at, s)
    ensures Ordered(at, Without(s, id))
  {
    if |s| > 0 {
      assert Ordered(at, s[1..]);
      WithoutOrdered(at, s[1..], id);
      var rest := Without(s[1..], id);
      forall j | 0 <= j < |rest| ensures at(s[0].timerId) < at(rest[j].timerId) {
        assert rest[j] in s[1..];
      }
    }
  }

  function EnteredIn(ops: seq<Op>): TimerId -> nat {
    id => Entered(ops, id)
  }

  lemma RunningChange(s: Session, kind: Lifecycle, timer: TimerRecord)
    ensures var r := Change(s, kind, timer).0.running;
            r == s.running || r == Without(s.running, timer.timerId) || r == Put(s.running, timer)
  {
  }

  lemma RunningStep(s: Session, op: Op)
    ensures var r := Step(s, op).running;
            || r == s.running
            || (op.Post? && r == Without(s.running, op.e.timerId))
            || (op.Post? && r == Put(s.running, FromPayload(op.e, op.now)))
  {
    if op.Post? {
      var heard := s.(lastPayload := s.lastPayload[op.e.timerId := op.e]);
      RunningChange(heard, op.e.kind, FromPayload(op.e, op.now));
    }
  }

  lemma StillEntered(ops: seq<Op>, id: TimerId)
    requires |ops| > 0 && IsRunning(Run(IDLE, ops[..|ops| - 1]), id)
    ensures Entered(ops, id) == Entered(ops[..|ops| - 1], id)
  {
  }

  /** Timers that were already running keep their positions. */
  lemma OrderedStill(ops: seq<Op>, r: seq<TimerRecord>)
    requires |ops| > 0 && Ordered(EnteredIn(ops[..|ops| - 1]), r)
    requires forall x :: x in r ==> IsRunning(Run(IDLE, ops[..|ops| - 1]), x.timerId)
    ensures Ordered(EnteredIn(ops), r)
  {
    forall i | 0 <= i < |r| ensures Entered(ops, r[i].timerId) == Entered(ops[..|ops| - 1], r[i].timerId) {
      assert r[i] in r;
      StillEntered(ops, r[i].timerId);
    }
  }

  /** A timer put in keeps its place, or enters last. */
  lemma OrderedPut(ops: seq<Op>, before: seq<TimerRecord>, t: TimerRecord)
    requires |ops| > 0 && before == Run(IDLE, ops[..|ops| - 1]).running && Ordered(EnteredIn(ops), before)
    ensures Ordered(EnteredIn(ops), Put(before, t))
  {
    var r := Put(before, t);
    forall i, j | 0 <= i < j < |r| ensures Entered(ops, r[i].timerId) < Entered(ops, r[j].timerId) {
      assert before[i].timerId == r[i].timerId;
      if j == |before| {
        assert IsRunning(Run(IDLE, ops[..|ops| - 1]), before[i].timerId);
        StillEntered(ops, before[i].timerId);
      } else {
        assert before[j].timerId == r[j].timerId;
        assert EnteredIn(ops)(before[i].timerId) < EnteredIn(ops)(before[j].timerId);
      }
    }
  }

  lemma MembersHeld(s: seq<TimerRecord>)
    ensures forall x :: x in s ==> Has(s, x.timerId)
  {
    forall x | x in s ensures Has(s, x.timerId) {
      var i :| 0 <= i < |s| && s[i] == x;
    }
  }

  /** First come, first listed: over every run the running timers stay in start order. */
  lemma {:induction false} StartOrderKept(ops: seq<Op>)
    ensures Ordered(EnteredIn(ops), Run(IDLE, ops).running)
  {
    if |ops| > 0 {
      var earlier, op := ops[..|ops| - 1], ops[|ops| - 1];
      StartOrderKept(earlier);
      var s := Run(IDLE, earlier);
      MembersHeld(s.running);
      RunningStep(s, op);
      OrderedStill(ops, s.running);
      if op.Post? {
        WithoutOrdered(EnteredIn(ops), s.running, op.e.timerId);
        OrderedPut(ops, s.running, FromPayload(op.e, op.now));
      }
    }
  }

  function FirstRunning(s: Session): Option<TimerRecord> {
    if |s.running| == 0 then None else Some(s.running[0])
  }

  /** The timer that owns the countdown ring is the earliest-started one still running. */
  lemma FirstRunningIsEarliest(ops: seq<Op>)
    ensures var s := Run(IDLE, ops);
            && (FirstRunning(s).None? <==> forall id :: !IsRunning(s, id))
            && (FirstRunning(s).Some? ==>
                  forall id :: IsRunning(s, id) ==> Entered(ops, FirstRunning(s).value.timerId) <= Entered(ops, id))
  {
    var s := Run(IDLE, ops);
    StartOrderKept(ops);
    if |s.running| > 0 {
      assert IsRunning(s, s.running[0].timerId);
      forall id | IsRunning(s, id) ensures Entered(ops, s.running[0].timerId) <= Entered(ops, id) {
        var i :| 0 <= i < |s.running| && s.running[i].timerId == id;
        if i > 0 {
          assert EnteredIn(ops)(s.running[0].timerId) < EnteredIn(ops)(s.running[i].timerId);
        }
      }
    }
  }

  // ---- What Home Assistant last said

  /** A well-formed post about the timer. */
  predicate About(op: Op, id: TimerId) {
    op.Post? && WellFormed(op.e) && op.e.timerId == id
  }

  /** The last thing said about a timer and when it was first said: repeating it says nothing. */
  function LastWord(ops: seq<Op>, id: TimerId): Option<(Event, Option<real>)> {
    if |ops| == 0 then None
    else
      var earlier, op := LastWord(ops[..|ops| - 1], id), ops[|ops| - 1];
      if !About(op, id) || (earlier.Some? && earlier.value.0 == op.e) then earlier else Some((op.e, op.now))
  }

  predicate EverCancelled(ops: seq<Op>, id: TimerId) {
    exists i :: 0 <= i < |ops| && About(ops[i], id) && ops[i].e.kind == Cancelled
  }

  lemma EverCancelledStep(ops: seq<Op>, id: TimerId)
    requires |ops| > 0
    ensures var op := ops[|ops| - 1];
            EverCancelled(ops, id) <==>
              EverCancelled(ops[..|ops| - 1], id) || (About(op, id) && op.e.kind == Cancelled)
  {
    var n := |ops| - 1;
    var earlier := ops[..n];
    if EverCancelled(ops, id) && !(About(ops[n], id) && ops[n].e.kind == Cancelled) {
      var i :| 0 <= i < |ops| && About(ops[i], id) && ops[i].e.kind == Cancelled;
      assert About(earlier[i], id) && earlier[i].e.kind == Cancelled;
    }
    if EverCancelled(earlier, id) {
      var i :| 0 <= i < |earlier| && About(earlier[i], id) && earlier[i].e.kind == Cancelled;
      assert About(ops[i], id) && ops[i].e.kind == Cancelled;
    }
  }

  /** What a session remembers is what was said. */
  lemma {:induction false} Remembers(ops: seq<Op>, id: TimerId)
    ensures var s, last := Run(IDLE, ops), LastWord(ops, id);
            && (id in s.lastPayload <==> last.Some?)
            && (last.Some? ==> s.lastPayload[id] == last.value.0 && WellFormed(last.value.0))
            && (id in s.cancelled <==> EverCancelled(ops, id))
  {
    if |ops| > 0 {
      Remembers(ops[..|ops| - 1], id);
      EverCancelledStep(ops, id);
      CancelledIsSaid(ops[..|ops| - 1], id);
    }
  }

  lemma {:induction false} CancelledIsSaid(ops: seq<Op>, id: TimerId)
    ensures var last := LastWord(ops, id); last.Some? && last.value.0.kind == Cancelled ==> EverCancelled(ops, id)
  {
    if |ops| > 0 {
      CancelledIsSaid(ops[..|ops| - 1], id);
      EverCancelledStep(ops, id);
    }
  }

  /** A record of each running timer, as it was last described. */
  ghost predicate AsSaid(s: Session, last: Option<(Event, Option<real>)>, cancelled: bool, id: TimerId) {
    var runs := last.Some? && (last.value.0.kind == Started || last.value.0.kind == Updated) && !cancelled;
    && (IsRunning(s, id) <==> runs)
    && (runs ==> forall t :: t in s.running && t.timerId == id ==>
                   t == TimerRecord(id, last.value.0.name, last.value.0.totalSeconds, last.value.0.secondsLeft,
                                    last.value.0.isActive, last.value.1))
  }

  lemma HasAfterWithout(s: seq<TimerRecord>, gone: TimerId, id: TimerId)
    ensures Has(Without(s, gone), id) <==> Has(s, id) && id != gone
  {
    var r := Without(s, gone);
    if Has(s, id) && id != gone {
      var i :| 0 <= i < |s| && s[i].timerId == id;
      assert s[i] in r;
    }
    if Has(r, id) {
      var i :| 0 <= i < |r| && r[i].timerId == id;
      assert r[i] in s;
    }
  }

  lemma {:induction false} PutHolds(s: seq<TimerRecord>, t: TimerRecord)
    requires Distinct(s)
    ensures t in Put(s, t) && Has(Put(s, t), t.timerId)
    ensures forall x :: x in Put(s, t) && x.timerId == t.timerId ==> x == t
    ensures forall x: TimerRecord :: x.timerId != t.timerId ==> (x in Put(s, t) <==> x in s)
  {
    if |s| > 0 && s[0].timerId != t.timerId {
      PutHolds(s[1..], t);
      assert s == [s[0]] + s[1..];
    }
    MembersHeld(Put(s, t));
  }

  lemma HasAfterPut(s: seq<TimerRecord>, t: TimerRecord, id: TimerId)
    requires Distinct(s)
    ensures Has(Put(s, t), id) <==> id == t.timerId || Has(s, id)
  {
    PutHolds(s, t);
    if Has(s, id) && id != t.timerId {
      var i :| 0 <= i < |s| && s[i].timerId == id;
      assert s[i] in Put(s, t);
      MembersHeld(Put(s, t));
    }
    if Has(Put(s, t), id) && id != t.timerId {
      var i :| 0 <= i < |Put(s, t)| && Put(s, t)[i].timerId == id;
      assert Put(s, t)[i] in s;
      MembersHeld(s);
    }
  }

  /** Only what is said about a timer moves it in or out of the running ones. */
  lemma OthersRunOn(s: Session, op: Op, id: TimerId)
    requires Distinct(s.running) && !About(op, id)
    ensures IsRunning(Step(s, op), id) <==> IsRunning(s, id)
    ensures forall t :: t in Step(s, op).running && t.timerId == id ==> t in s.running
  {
    RunningStep(s, op);
    if op.Post? {
      HasAfterWithout(s.running, op.e.timerId, id);
      if op.e.timerId != id {
        HasAfterPut(s.running, FromPayload(op.e, op.now), id);
        PutHolds(s.running, FromPayload(op.e, op.now));
      }
    }
  }

  /** News of a timer not cancelled before. */
  lemma NewsIsTaken(s: Session, e: Event, now: Option<real>)
    requires Distinct(s.running) && WellFormed(e) && e.timerId !in s.cancelled
    requires e.timerId in s.lastPayload ==> s.lastPayload[e.timerId] != e
    ensures AsSaid(ApplyEvent(s, e, now).0, Some((e, now)), e.kind == Cancelled, e.timerId)
  {
    PutHolds(s.running, FromPayload(e, now));
    HasAfterWithout(s.running, e.timerId, e.timerId);
  }

  /** Over every run a timer is listed as running exactly when the last thing said about it was that it
      started or was updated and it was never cancelled, with the times it was described with. */
  lemma {:induction false} RunningIsLastSaid(ops: seq<Op>, id: TimerId)
    ensures AsSaid(Run(IDLE, ops), LastWord(ops, id), EverCancelled(ops, id), id)
  {
    if |ops| == 0 {
      return;
    }
    var earlier, op := ops[..|ops| - 1], ops[|ops| - 1];
    var s := Run(IDLE, earlier);
    RunningIsLastSaid(earlier, id);
    Remembers(earlier, id);
    EverCancelledStep(ops, id);
    RunConsistent(earlier);
    if !About(op, id) {
      OthersRunOn(s, op, id);
    } else if id in s.cancelled {
      Remembers(ops, id);
      RunConsistent(ops);
      CancellationAbsorbs(s, [op], id);
      assert [op][..0] == [];
      assert Run(s, []) == s;
    } else if id !in s.lastPayload || s.lastPayload[id] != op.e {
      NewsIsTaken(s, op.e, op.now);
    } else {
      CancelledIsSaid(earlier, id);
    }
  }

  /** A payload seen again changes nothing, whatever was said of other timers and dismissed since. */
  lemma {:induction false} RepeatIsIgnored(s: Session, e: Event, now: Option<real>, ops: seq<Op>, again: Option<real>)
    requires WellFormed(e)
    requires forall i :: 0 <= i < |ops| ==> !About(ops[i], e.timerId)
    ensures var s' := Run(ApplyEvent(s, e, now).0, ops);
            e.timerId in s'.lastPayload && s'.lastPayload[e.timerId] == e &&
            ApplyEvent(s', e, again) == (s', Transition(true, true, false))
  {
    if |ops| > 0 {
      RepeatIsIgnored(s, e, now, ops[..|ops| - 1], again);
      assert !About(ops[|ops| - 1], e.timerId);
    }
  }

  // ---- The order of the ring

  predicate IsRinging(s: Session, id: TimerId) {
    Has(s.ring, id)
  }

  /** The position in the run at which a ringing alarm last joined the ring. */
  function Rang(ops: seq<Op>, id: TimerId): (n: nat)
    ensures n <= |ops|
  {
    if |ops| == 0 then 0
    else
      var earlier := ops[..|ops| - 1];
      if IsRinging(Run(IDLE, earlier), id) then Rang(earlier, id) else |ops|
  }

  function RangIn(ops: seq<Op>): TimerId -> nat {
    id => Rang(ops, id)
  }

  lemma RingStep(s: Session, op: Op)
    ensures var r := Step(s, op).ring;
            || r == s.ring || r == [] || (|s.ring| > 0 && r == s.ring[1..])
            || (op.Post? && r == Without(s.ring, op.e.timerId))
            || (op.Post? && !Has(s.ring, op.e.timerId) && r == s.ring + [FromPayload(op.e, op.now)])
  {
  }

  lemma StillOrdered(ops: seq<Op>, r: seq<TimerRecord>)
    requires |ops| > 0 && Ordered(RangIn(ops[..|ops| - 1]), r)
    requires forall x :: x in r ==> IsRinging(Run(IDLE, ops[..|ops| - 1]), x.timerId)
    ensures Ordered(RangIn(ops), r)
  {
    forall i | 0 <= i < |r| ensures Rang(ops, r[i].timerId) == Rang(ops[..|ops| - 1], r[i].timerId) {
      assert r[i] in r;
    }
  }

  /** An alarm that joins the ring joins it last. */
  lemma OrderedJoin(ops: seq<Op>, ring: seq<TimerRecord>, t: TimerRecord)
    requires |ops| > 0 && ring == Run(IDLE, ops[..|ops| - 1]).ring && !Has(ring, t.timerId)
    requires Ordered(RangIn(ops), ring)
    ensures Ordered(RangIn(ops), ring + [t])
  {
    var r := ring + [t];
    assert Rang(ops, t.timerId) == |ops|;
    MembersHeld(ring);
    forall i, j | 0 <= i < j < |r| ensures RangIn(ops)(r[i].timerId) < RangIn(ops)(r[j].timerId) {
      if j == |ring| {
        assert r[i] in ring;
        assert Rang(ops, r[i].timerId) == Rang(ops[..|ops| - 1], r[i].timerId);
      } else {
        assert RangIn(ops)(ring[i].timerId) < RangIn(ops)(ring[j].timerId);
      }
    }
  }

  /** Over every run the ring is in the order in which its alarms finished. */
  lemma {:induction false} RingOrderKept(ops: seq<Op>)
    ensures Ordered(RangIn(ops), Run(IDLE, ops).ring)
  {
    if |ops| > 0 {
      var earlier, op := ops[..|ops| - 1], ops[|ops| - 1];
      RingOrderKept(earlier);
      var ring, at := Run(IDLE, earlier).ring, RangIn(ops);
      MembersHeld(ring);
      RingStep(Run(IDLE, earlier), op);
      StillOrdered(ops, ring);
      if op.Post? {
        WithoutOrdered(at, ring, op.e.timerId);
        if !Has(ring, op.e.timerId) {
          OrderedJoin(ops, ring, FromPayload(op.e, op.now));
        }
      } else if |ring| > 0 {
        DropOrdered(at, ring);
      }
    }
  }

  lemma DropOrdered(at: TimerId -> nat, ring: seq<TimerRecord>)
    requires |ring| > 0 && Ordered(at, ring)
    ensures Ordered(at, ring[1..])
  {
  }

  lemma HeadLeast(at: TimerId -> nat, ring: seq<TimerRecord>, i: nat)
    requires i < |ring| && Ordered(at, ring)
    ensures at(ring[0].timerId) <= at(ring[i].timerId)
    ensures i > 0 ==> at(ring[0].timerId) < at(ring[i].timerId)
  {
  }

  /** Behind the head of an ordered ring are those that have one before them. */
  lemma BehindHead(at: TimerId -> nat, ring: seq<TimerRecord>, id: TimerId)
    requires |ring| > 0 && Ordered(at, ring)
    ensures Has(ring[1..], id) <==> Has(ring, id) && exists other :: Has(ring, other) && at(other) < at(id)
  {
    var rest := ring[1..];
    if Has(rest, id) {
      var i :| 0 <= i < |rest| && rest[i].timerId == id;
      assert ring[i + 1].timerId == id && Has(ring, ring[0].timerId);
      HeadLeast(at, ring, i + 1);
    }
    if other :| Has(ring, id) && Has(ring, other) && at(other) < at(id) {
      var i :| 0 <= i < |ring| && ring[i].timerId == id;
      var j :| 0 <= j < |ring| && ring[j].timerId == other;
      HeadLeast(at, ring, j);
      assert rest[i - 1].timerId == id;
    }
  }

  /** First come, first served: a dismissal silences the alarm that has rung longest, and only that one. */
  lemma DismissalIsOldest(ops: seq<Op>)
    ensures var s, after := Run(IDLE, ops), Run(IDLE, ops + [DismissHead]);
            && (forall id :: IsRinging(after, id) <==>
                  IsRinging(s, id) && exists other :: IsRinging(s, other) && Rang(ops, other) < Rang(ops, id))
            && after.running == s.running && after.cancelled == s.cancelled && after.lastPayload == s.lastPayload
  {
    var s, after := Run(IDLE, ops), Run(IDLE, ops + [DismissHead]);
    assert (ops + [DismissHead])[..|ops|] == ops;
    RingOrderKept(ops);
    if |s.ring| > 0 {
      forall id
        ensures IsRinging(after, id) <==>
                  IsRinging(s, id) && exists other :: IsRinging(s, other) && Rang(ops, other) < Rang(ops, id)
      {
        BehindHead(RangIn(ops), s.ring, id);
        if other :| IsRinging(s, other) && Rang(ops, other) < Rang(ops, id) {
          assert RangIn(ops)(other) < RangIn(ops)(id);
        }
      }
    }
  }

  lemma RingingAfterPost(s: Session, e: Event, now: Option<real>, id: TimerId)
    requires Consistent(s) && IsRinging(ApplyEvent(s, e, now).0, id)
    ensures if WellFormed(e) && e.timerId == id && !(id in s.lastPayload && s.lastPayload[id] == e)
            then e.kind == Finished && id !in s.cancelled else IsRinging(s, id)
  {
    HasAfterWithout(s.ring, e.timerId, id);
    CancelledIsSilent(s, id);
  }

  /** An alarm that rings after a step rang before it, or is news. */
  lemma RingingAfter(s: Session, op: Op, id: TimerId)
    requires Consistent(s) && IsRinging(Step(s, op), id)
    ensures if About(op, id) && !(id in s.lastPayload && s.lastPayload[id] == op.e)
            then op.e.kind == Finished && id !in s.cancelled else IsRinging(s, id)
  {
    if op.Post? {
      RingingAfterPost(s, op.e, op.now, id);
    } else {
      var r := Step(s, op).ring;
      var i :| 0 <= i < |r| && r[i].timerId == id;
      assert s.ring[i + 1].timerId == id;
    }
  }

  lemma CancelledIsSilent(s: Session, id: TimerId)
    requires Consistent(s)
    ensures id in s.cancelled ==> !IsRinging(s, id)
  {
    assert forall i :: 0 <= i < |s.ring| ==> s.ring[i] in s.ring;
  }

  /** Over every run an alarm rings only if the last thing said about it was that it finished, and it was never
      cancelled. */
  lemma {:induction false} RingingIsFinished(ops: seq<Op>, id: TimerId)
    ensures IsRinging(Run(IDLE, ops), id) ==>
              var last := LastWord(ops, id); last.Some? && last.value.0.kind == Finished && !EverCancelled(ops, id)
  {
    if |ops| > 0 && IsRinging(Run(IDLE, ops), id) {
      var earlier, op := ops[..|ops| - 1], ops[|ops| - 1];
      RingingIsFinished(earlier, id);
      Remembers(earlier, id);
      EverCancelledStep(ops, id);
      RunConsistent(earlier);
      RingingAfter(Run(IDLE, earlier), op, id);
    }
  }

  /** And when that is news it does ring, behind those ringing already. */
  lemma FinishedIsHeard(ops: seq<Op>, e: Event, now: Option<real>)
    requires e.kind == Finished && e.timerId != HaTimer("") && !EverCancelled(ops, e.timerId)
    requires LastWord(ops, e.timerId).None? || LastWord(ops, e.timerId).value.0 != e
    ensures var ring := Run(IDLE, ops).ring;
            Run(IDLE, ops + [Post(e, now)]).ring ==
              if Has(ring, e.timerId) then ring
              else ring + [TimerRecord(e.timerId, e.name, e.totalSeconds, e.secondsLeft, e.isActive, now)]
  {
    Remembers(ops, e.timerId);
    assert (ops + [Post(e, now)])[..|ops|] == ops;
  }
}

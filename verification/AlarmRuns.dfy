/** What holds over every run of the alarm scheduler: at most one ring per occurrence, exactly one on a device that
    is ready in time, and none ever for one that was not. */
module AlarmRuns {
  import opened Options
  import opened Alarms
  import opened AlarmScheduler
  import S = TimerSession

  // ---- Runs

  /** One pass, or something that happens between passes. */
  datatype Op =
    | Tick(loaded: seq<Row>, env: Surroundings)
    | TimerPosted(device: string, e: S.Event, clock: Option<real>)
    | DismissOne(device: string)
    | DismissAll(device: string)
    | Restart
    | Create(spec: AlarmSpec, now: int)
    | Delete(id: string)

  function Step(w: World, op: Op): World {
    match op
    case Tick(loaded, env) => Pass(w, loaded, env)
    case TimerPosted(device, e, clock) =>
      w.(sessions := w.sessions[device := S.ApplyEvent(SessionOf(w, device), e, clock).0])
    case DismissOne(device) => w.(sessions := w.sessions[device := S.DropHead(SessionOf(w, device))])
    case DismissAll(device) => w.(sessions := w.sessions[device := S.DropAll(SessionOf(w, device))])
    case Restart => w.(sessions := map[])
    case Create(spec, now) =>
      w.(rows := w.rows[spec.id := Row(spec, NextFire(spec, now), None)], used := w.used + {spec.id})
    case Delete(id) => w.(rows := w.rows - {id})
  }

  /** Home Assistant posts no alarm ids, new alarms get new ids, and the controller restarts only once the
      occurrences it has rung are recorded. */
  ghost predicate Legal(w: World, op: Op) {
    match op
    case Tick(loaded, env) => IsLoad(w, loaded)
    case TimerPosted(device, e, clock) => e.timerId.HaTimer?
    case Restart => Settled(w)
    case Create(spec, now) => spec.id !in w.used && ValidSpec(spec)
    case _ => true
  }

  function Run(w: World, ops: seq<Op>): World {
    if |ops| == 0 then w else Step(Run(w, ops[..|ops| - 1]), ops[|ops| - 1])
  }

  ghost predicate LegalRun(w: World, ops: seq<Op>) {
    forall i :: 0 <= i < |ops| ==> Legal(Run(w, ops[..i]), ops[i])
  }

  // ---- The invariant

  /** The live session of the alarm's device has seen this occurrence's payload. */
  ghost predicate Remembers(w: World, spec: AlarmSpec, day: int) {
    S.AlarmTimer(spec.id, day) in SessionOf(w, spec.deviceId).lastPayload
  }

  /** The row has moved past the occurrence, or records it. */
  ghost predicate Recorded(row: Row, day: int) {
    row.next.Some? && (day < OccurrenceKey(row.spec, row.next.value)
                       || (day == OccurrenceKey(row.spec, row.next.value) && row.last == Some(day)))
  }

  /** The occurrence cannot fire again from its row: it is recorded, or there is no such enabled alarm. */
  ghost predicate Closed(w: World, f: Firing) {
    f.alarmId in w.rows && w.rows[f.alarmId].spec.enabled ==> Recorded(w.rows[f.alarmId], f.day)
  }

  /** A ring cannot be repeated: it is closed, or the session will ignore it. */
  ghost predicate Spent(w: World, f: Firing) {
    Closed(w, f)
    || (w.rows[f.alarmId].next.Some? && f.day == OccurrenceKey(w.rows[f.alarmId].spec, w.rows[f.alarmId].next.value)
        && Remembers(w, w.rows[f.alarmId].spec, f.day))
  }

  /** Every ring is recorded in its row. */
  ghost predicate Settled(w: World) {
    forall f :: f in w.rings ==> Closed(w, f)
  }

  ghost predicate SoundRow(id: string, row: Row) {
    && row.spec.id == id && ValidSpec(row.spec)
    && (row.next.Some? ==> IsFiring(row.spec, row.next.value))
    && (row.spec.enabled && row.next.None? ==> row.last.None?)
    && (row.spec.enabled && row.next.Some? && row.last.Some? && GapsStayInOneDay(row.spec.zone) ==>
          row.last.value < OccurrenceKey(row.spec, row.next.value))
  }

  /** An alarm id is never cancelled; a session knows an occurrence only by its own payload, and only once taken in. */
  ghost predicate SessionOk(w: World, s: S.Session) {
    && (forall id, day :: S.AlarmTimer(id, day) !in s.cancelled)
    && (forall id, day :: S.AlarmTimer(id, day) in s.lastPayload ==> Firing(id, day) in w.fired)
    && (forall id, day :: S.AlarmTimer(id, day) in s.lastPayload && id in w.rows ==>
          s.lastPayload[S.AlarmTimer(id, day)] == AlarmEvent(w.rows[id].spec, day))
    && (forall t :: t in s.ring && t.timerId.AlarmTimer? ==> t.timerId in s.lastPayload)
  }

  ghost predicate NoRepeats(rings: seq<Firing>) {
    forall i, j :: 0 <= i < j < |rings| ==> rings[i] != rings[j]
  }

  ghost predicate RowsOk(w: World) {
    forall id :: id in w.rows ==> SoundRow(id, w.rows[id]) && id in w.used
  }

  ghost predicate RingsOk(w: World) {
    && (forall f :: f in w.rings ==> Spent(w, f))
    && (forall f :: f in w.rings || f in w.fired ==> f.alarmId in w.used)
    && NoRepeats(w.rings)
  }

  ghost predicate SessionsOk(w: World) {
    forall device :: device in w.sessions ==> SessionOk(w, w.sessions[device])
  }

  ghost predicate Inv(w: World) {
    RowsOk(w) && RingsOk(w) && SessionsOk(w)
  }

  // ---- Where runs begin

  /** A controller that has just started on a table of sound rows, the empty one included. */
  lemma FreshTable(rows: map<string, Row>)
    requires forall id :: id in rows ==> SoundRow(id, rows[id])
    ensures Inv(World(rows, map[], [], [], rows.Keys))
  {
  }

  // ---- Firing keeps it

  lemma SessionIsOk(w: World, device: string)
    requires SessionsOk(w)
    ensures SessionOk(w, SessionOf(w, device))
  {
  }

  /** What one firing does to its session: ignored exactly when the occurrence is known, and known after. */
  lemma FiringSession(w: World, s: S.Session, spec: AlarmSpec, day: int, clock: Option<real>)
    requires SessionOk(w, s) && spec.id in w.rows && w.rows[spec.id].spec == spec
    ensures var id, e := S.AlarmTimer(spec.id, day), AlarmEvent(spec, day);
            var (s', t) := S.ApplyEvent(s, e, clock);
            && s'.lastPayload == s.lastPayload[id := e] && s'.cancelled == s.cancelled
            && t.accepted && t.duplicate == (id in s.lastPayload) && t.alarmChanged == (id !in s.lastPayload)
            && (forall x :: x in s'.ring ==> x in s.ring || x.timerId == id)
  {
    var id, e := S.AlarmTimer(spec.id, day), AlarmEvent(spec, day);
    if id in s.lastPayload {
      assert s.lastPayload[id := e] == s.lastPayload;
    }
    RingIsKnown(w, s, id);
  }

  lemma RingIsKnown(w: World, s: S.Session, id: S.TimerId)
    requires SessionOk(w, s) && id.AlarmTimer?
    ensures S.Has(s.ring, id) ==> id in s.lastPayload
  {
    if S.Has(s.ring, id) {
      var i :| 0 <= i < |s.ring| && s.ring[i].timerId == id;
      assert s.ring[i] in s.ring;
    }
  }

  /** The session a firing leaves: with the event applied, its queue dropped if the event was new and the device
      away. */
  lemma FiredSession(w: World, spec: AlarmSpec, day: int, device: Device, clock: real)
    ensures var s := SessionOf(FireAlarm(w, spec, day, device, clock), spec.deviceId);
            var (applied, t) := S.ApplyEvent(SessionOf(w, spec.deviceId), AlarmEvent(spec, day), Some(clock));
            s == if t.accepted && !t.duplicate && !device.Ready? then S.DropAll(applied) else applied
  {
  }

  lemma FireElsewhere(w: World, spec: AlarmSpec, day: int, device: Device, clock: real)
    ensures forall d :: d != spec.deviceId ==> SessionOf(FireAlarm(w, spec, day, device, clock), d) == SessionOf(w, d)
  {
  }

  /** A firing is taken in unless the session knows it, and rings exactly if it is taken in by a ready device. */
  lemma FireRings(w: World, spec: AlarmSpec, day: int, device: Device, clock: real)
    requires SessionsOk(w) && spec.id in w.rows && w.rows[spec.id].spec == spec
    ensures var w', f := FireAlarm(w, spec, day, device, clock), Firing(spec.id, day);
            && w'.rows == w.rows && w'.used == w.used
            && w'.fired == (if Remembers(w, spec, day) then w.fired else w.fired + [f])
            && w'.rings == (if device.Ready? && !Remembers(w, spec, day) then w.rings + [f] else w.rings)
            && f in w'.fired
  {
    SessionIsOk(w, spec.deviceId);
    FiringSession(w, SessionOf(w, spec.deviceId), spec, day, Some(clock));
  }

  /** Afterwards the session knows this occurrence, and what it knew before. */
  lemma FireRemembers(w: World, spec: AlarmSpec, day: int, device: Device, clock: real)
    requires SessionsOk(w) && spec.id in w.rows && w.rows[spec.id].spec == spec
    ensures var w' := FireAlarm(w, spec, day, device, clock);
            forall s, d :: Remembers(w', s, d) <==>
              Remembers(w, s, d) || (s.deviceId == spec.deviceId && s.id == spec.id && d == day)
  {
    SessionIsOk(w, spec.deviceId);
    FiringSession(w, SessionOf(w, spec.deviceId), spec, day, Some(clock));
    FiredSession(w, spec, day, device, clock);
    FireElsewhere(w, spec, day, device, clock);
  }

  lemma FireSessions(w: World, spec: AlarmSpec, day: int, device: Device, clock: real)
    requires SessionsOk(w) && spec.id in w.rows && w.rows[spec.id].spec == spec
    ensures SessionsOk(FireAlarm(w, spec, day, device, clock))
  {
    var w' := FireAlarm(w, spec, day, device, clock);
    FireRings(w, spec, day, device, clock);
    SessionIsOk(w, spec.deviceId);
    FiringSession(w, SessionOf(w, spec.deviceId), spec, day, Some(clock));
    FiredSession(w, spec, day, device, clock);
    forall d | d in w'.sessions ensures SessionOk(w', w'.sessions[d]) {
      SessionIsOk(w, d);
      if d != spec.deviceId {
        FireElsewhere(w, spec, day, device, clock);
        assert w'.sessions[d] == SessionOf(w, d);
      } else {
        assert w'.sessions[d] == SessionOf(w', d);
      }
    }
  }

  /** Firing the row's own occurrence keeps the invariant. */
  lemma FireKeeps(w: World, row: Row, day: int, device: Device, clock: real)
    requires Inv(w) && IsEnabledRow(w, row) && row.next.Some?
    requires OccurrenceKey(row.spec, row.next.value) == day && row.last != Some(day)
    ensures Inv(FireAlarm(w, row.spec, day, device, clock))
  {
    var w', f := FireAlarm(w, row.spec, day, device, clock), Firing(row.spec.id, day);
    FireRings(w, row.spec, day, device, clock);
    FireRemembers(w, row.spec, day, device, clock);
    FireSessions(w, row.spec, day, device, clock);
    if f in w.rings {
      assert Spent(w, f);
    }
    forall g | g in w'.rings ensures Spent(w', g) {
      if g in w.rings {
        assert Spent(w, g);
      }
    }
  }

  // ---- Advancing keeps it

  /** The replacement keeps the alarm's payloads. */
  predicate SamePayloads(a: AlarmSpec, b: AlarmSpec) {
    a.id == b.id && a.alarmLabel == b.alarmLabel && a.deviceId == b.deviceId
  }

  /** Replacing one row keeps the invariant when the new row is sound and what was closed or remembered stays so. */
  lemma RowReplaced(w: World, id: string, row: Row)
    requires Inv(w) && id in w.rows && SoundRow(id, row) && SamePayloads(w.rows[id].spec, row.spec)
    requires forall f :: f in w.rings && f.alarmId == id ==> Spent(w.(rows := w.rows[id := row]), f)
    ensures Inv(w.(rows := w.rows[id := row]))
  {
    var w' := w.(rows := w.rows[id := row]);
    forall f | f in w'.rings ensures Spent(w', f) {
      assert Spent(w, f);
    }
    SessionsAfterRow(w, id, row);
  }

  lemma SessionsAfterRow(w: World, id: string, row: Row)
    requires SessionsOk(w) && id in w.rows && SamePayloads(w.rows[id].spec, row.spec)
    ensures SessionsOk(w.(rows := w.rows[id := row]))
  {
    var w' := w.(rows := w.rows[id := row]);
    forall device | device in w'.sessions ensures SessionOk(w', w'.sessions[device]) {
      assert SessionOk(w, w.sessions[device]);
    }
  }

  lemma DisableKeeps(w: World, id: string, next: Option<int>, last: Option<int>)
    requires Inv(w) && id in w.rows
    requires next.None? || next == w.rows[id].next
    ensures Inv(w.(rows := w.rows[id := Row(w.rows[id].spec.(enabled := false), next, last)]))
  {
    var row := w.rows[id];
    var row' := Row(row.spec.(enabled := false), next, last);
    if next.Some? {
      SameFirings(row.spec, row'.spec, next.value);
    }
    RowReplaced(w, id, row');
  }

  lemma SameFirings(a: AlarmSpec, b: AlarmSpec, f: int)
    requires b == a.(enabled := false) && IsFiring(a, f)
    ensures IsFiring(b, f)
  {
    var day :| Matches(a, day) && f == FireOn(a, day);
    SameClockSameFire(a, b, day);
    assert Matches(b, day);
  }

  /** Moving the row on with its occurrence recorded closes that occurrence and leaves closed what was. */
  lemma MovedOn(row: Row, next: int, f: Firing)
    requires ValidSpec(row.spec) && row.next.Some? && IsFiring(row.spec, row.next.value)
    requires IsFiring(row.spec, next) && next > row.next.value
    requires Recorded(row, f.day) || f.day == OccurrenceKey(row.spec, row.next.value)
    ensures Recorded(Row(row.spec, Some(next), Some(OccurrenceKey(row.spec, row.next.value))), f.day)
  {
    KeysOrdered(row.spec, row.next.value, next);
  }

  lemma AdvanceCovers(w: World, row: Row, next: int)
    requires Inv(w) && IsEnabledRow(w, row) && row.next.Some?
    requires IsFiring(row.spec, next) && next > row.next.value
    ensures Inv(Persist(w, row.spec.id, Some(next), Some(OccurrenceKey(row.spec, row.next.value))))
  {
    var id, day := row.spec.id, OccurrenceKey(row.spec, row.next.value);
    assert SoundRow(id, w.rows[id]);
    var row' := Row(row.spec, Some(next), Some(day));
    KeysOrdered(row.spec, row.next.value, next);
    var w' := w.(rows := w.rows[id := row']);
    forall f | f in w.rings && f.alarmId == id ensures Spent(w', f) {
      assert Spent(w, f);
      MovedOn(row, next, f);
    }
    RowReplaced(w, id, row');
  }

  lemma NextFires(spec: AlarmSpec, after: int)
    requires ValidSpec(spec) && NextFire(spec, after).Some?
    ensures NextFire(spec, after).value > after && IsFiring(spec, NextFire(spec, after).value)
  {
    NextFireIsLeast(spec, after);
  }

  lemma RowWrites(w: World, row: Row, day: int)
    requires IsEnabledRow(w, row)
    ensures var id, off := row.spec.id, row.spec.(enabled := false);
            && Disable(w, id) == w.(rows := w.rows[id := Row(off, row.next, row.last)])
            && Persist(Disable(w, id), id, None, Some(day)) == w.(rows := w.rows[id := Row(off, None, Some(day))])
  {
    var id, off := row.spec.id, row.spec.(enabled := false);
    assert w.rows[id := Row(off, row.next, row.last)][id := Row(off, None, Some(day))]
        == w.rows[id := Row(off, None, Some(day))];
  }

  lemma AdvanceKeeps(w: World, row: Row, floor: int, faults: Faults)
    requires Inv(w) && IsEnabledRow(w, row) && row.next.Some? && floor >= row.next.value
    ensures Inv(Advance(w, row, floor, OccurrenceKey(row.spec, row.next.value), faults))
  {
    var id, day := row.spec.id, OccurrenceKey(row.spec, row.next.value);
    assert SoundRow(id, w.rows[id]);
    var next := NextFire(row.spec, floor);
    if next.None? {
      DisableKeeps(w, id, row.next, row.last);
      DisableKeeps(w, id, None, Some(day));
      RowWrites(w, row, day);
    } else {
      NextFires(row.spec, floor);
      AdvanceCovers(w, row, next.value);
    }
  }

  /** A row that was never scheduled has never rung. */
  lemma FirstScheduleKeeps(w: World, row: Row, now: int)
    requires Inv(w) && IsEnabledRow(w, row) && row.next.None?
    ensures Inv(Persist(w, row.spec.id, NextFire(row.spec, now), row.last))
  {
    var id := row.spec.id;
    assert SoundRow(id, w.rows[id]);
    var next := NextFire(row.spec, now);
    if next.Some? {
      NextFires(row.spec, now);
    }
    forall f | f in w.rings ensures f.alarmId != id {
      assert Spent(w, f);
    }
    RowReplaced(w, id, Row(row.spec, next, row.last));
  }

  // ---- What a pass over one alarm leaves alone

  /** Everything but one alarm's row, its occurrences and what sessions know of them is as it was. */
  ghost predicate OnlyAlarm(w: World, w': World, id: string) {
    && w'.used == w.used && w'.rows.Keys == w.rows.Keys
    && (forall i :: i != id && i in w.rows ==> w'.rows[i] == w.rows[i])
    && (forall f: Firing :: f.alarmId != id ==> (f in w'.rings <==> f in w.rings))
    && (forall s: AlarmSpec, d: int :: s.id != id ==> (Remembers(w', s, d) <==> Remembers(w, s, d)))
    && w.rings <= w'.rings
  }

  lemma AdvanceFrame(w: World, row: Row, floor: int, occurrence: int, faults: Faults)
    ensures var w' := Advance(w, row, floor, occurrence, faults);
            OnlyAlarm(w, w', row.spec.id) && w'.rings == w.rings && w'.fired == w.fired && w'.sessions == w.sessions
  {
  }

  lemma FireFrame(w: World, row: Row, day: int, device: Device, clock: real)
    requires SessionsOk(w) && IsEnabledRow(w, row)
    ensures var w' := FireAlarm(w, row.spec, day, device, clock);
            OnlyAlarm(w, w', row.spec.id) && IsEnabledRow(w', row)
  {
    FireRings(w, row.spec, day, device, clock);
    FireRemembers(w, row.spec, day, device, clock);
  }

  lemma FramesChain(w: World, w1: World, w2: World, id: string)
    requires OnlyAlarm(w, w1, id) && OnlyAlarm(w1, w2, id)
    ensures OnlyAlarm(w, w2, id)
  {
  }

  lemma ReconcileFrame(w: World, row: Row, now: int, clock: real, faults: Faults, device: Device)
    requires SessionsOk(w) && IsEnabledRow(w, row)
    ensures OnlyAlarm(w, Reconcile(w, row, now, clock, faults, device), row.spec.id)
  {
    if row.next.Some? && now >= row.next.value {
      var day := OccurrenceKey(row.spec, row.next.value);
      var late := WithinGrace(row.next.value, now);
      var floor := if late then row.next.value else now;
      if row.last != Some(day) && late {
        var w1 := FireAlarm(w, row.spec, day, device, clock);
        FireFrame(w, row, day, device, clock);
        AdvanceFrame(w1, row, floor, day, faults);
        FramesChain(w, w1, Advance(w1, row, floor, day, faults), row.spec.id);
      } else {
        AdvanceFrame(w, row, floor, day, faults);
      }
    }
  }

  /** Reconciling one alarm keeps the invariant. */
  lemma ReconcileKeeps(w: World, row: Row, now: int, clock: real, faults: Faults, device: Device)
    requires Inv(w) && IsEnabledRow(w, row)
    ensures Inv(Reconcile(w, row, now, clock, faults, device))
  {
    if row.next.None? {
      FirstScheduleKeeps(w, row, now);
    } else if now >= row.next.value {
      var day := OccurrenceKey(row.spec, row.next.value);
      var late := WithinGrace(row.next.value, now);
      if row.last != Some(day) && late {
        FireKeeps(w, row, day, device, clock);
        FireFrame(w, row, day, device, clock);
        AdvanceKeeps(FireAlarm(w, row.spec, day, device, clock), row, row.next.value, faults);
      } else {
        AdvanceKeeps(w, row, if late then row.next.value else now, faults);
      }
    }
  }

  function ReconcileAt(w: World, row: Row, env: Surroundings): World {
    Reconcile(w, row, env.now, env.clock, env.faults(row.spec.id), env.devices(row.spec.deviceId))
  }

  /** One more row of a pass; the rows still to come are untouched. */
  lemma {:induction false} PassKeeps(w: World, loaded: seq<Row>, env: Surroundings, n: nat)
    requires Inv(w) && IsLoad(w, loaded) && n <= |loaded|
    ensures var w' := Pass(w, loaded[..n], env);
            && Inv(w') && w'.used == w.used && w.rings <= w'.rings && w'.rows.Keys == w.rows.Keys
            && (forall i :: n <= i < |loaded| ==> IsEnabledRow(w', loaded[i]))
  {
    if n > 0 {
      PassKeeps(w, loaded, env, n - 1);
      PassNext(w, loaded, env, n - 1);
      var w1, row := Pass(w, loaded[..n - 1], env), loaded[n - 1];
      ReconcileKeeps(w1, row, env.now, env.clock, env.faults(row.spec.id), env.devices(row.spec.deviceId));
      ReconcileFrame(w1, row, env.now, env.clock, env.faults(row.spec.id), env.devices(row.spec.deviceId));
    } else {
      assert loaded[..0] == [];
    }
  }

  lemma PassNext(w: World, loaded: seq<Row>, env: Surroundings, n: nat)
    requires n < |loaded|
    ensures Pass(w, loaded[..n + 1], env) == ReconcileAt(Pass(w, loaded[..n], env), loaded[n], env)
  {
    assert loaded[..n + 1][..n] == loaded[..n];
  }

  lemma PassStep(w: World, loaded: seq<Row>, env: Surroundings, n: nat)
    requires Inv(w) && IsLoad(w, loaded) && n < |loaded|
    ensures var w1 := Pass(w, loaded[..n], env);
            && Inv(w1) && w1.rows.Keys == w.rows.Keys && IsEnabledRow(w1, loaded[n])
            && Pass(w, loaded[..n + 1], env) == ReconcileAt(w1, loaded[n], env)
  {
    PassKeeps(w, loaded, env, n);
    PassNext(w, loaded, env, n);
  }

  // ---- The other steps keep it

  /** What a session knows of alarms. */
  ghost predicate SameKnowledge(a: S.Session, b: S.Session) {
    forall id, day :: (S.AlarmTimer(id, day) in a.lastPayload <==> S.AlarmTimer(id, day) in b.lastPayload)
                   && (S.AlarmTimer(id, day) in a.lastPayload ==>
                         a.lastPayload[S.AlarmTimer(id, day)] == b.lastPayload[S.AlarmTimer(id, day)])
  }

  /** Replacing a session by one that knows the same of alarms keeps the invariant. */
  lemma SessionReplaced(w: World, device: string, s: S.Session)
    requires Inv(w) && SessionOk(w, s) && SameKnowledge(SessionOf(w, device), s)
    ensures Inv(w.(sessions := w.sessions[device := s]))
  {
    var w' := w.(sessions := w.sessions[device := s]);
    forall f | f in w'.rings ensures Spent(w', f) {
      assert Spent(w, f);
    }
    forall d | d in w'.sessions ensures SessionOk(w', w'.sessions[d]) {
      SessionIsOk(w, d);
    }
  }

  lemma HaEventOk(w: World, s: S.Session, e: S.Event, clock: Option<real>)
    requires SessionOk(w, s) && e.timerId.HaTimer?
    ensures SessionOk(w, S.ApplyEvent(s, e, clock).0) && SameKnowledge(s, S.ApplyEvent(s, e, clock).0)
  {
  }

  lemma RestartKeeps(w: World)
    requires Inv(w) && Settled(w)
    ensures Inv(w.(sessions := map[]))
  {
    var w' := w.(sessions := map[]);
    forall f | f in w'.rings ensures Spent(w', f) {
      assert Closed(w, f);
    }
  }

  lemma CreateKeeps(w: World, spec: AlarmSpec, now: int)
    requires Inv(w) && spec.id !in w.used && ValidSpec(spec)
    ensures Inv(Step(w, Create(spec, now)))
  {
    var w' := Step(w, Create(spec, now));
    var next := NextFire(spec, now);
    if next.Some? {
      NextFires(spec, now);
    }
    forall id | id in w'.rows ensures SoundRow(id, w'.rows[id]) && id in w'.used {
      assert id != spec.id ==> id in w.rows;
    }
    forall f | f in w'.rings ensures Spent(w', f) {
      assert Spent(w, f);
    }
    forall d | d in w'.sessions ensures SessionOk(w', w'.sessions[d]) {
      assert SessionOk(w, w.sessions[d]);
    }
  }

  lemma DeleteKeeps(w: World, id: string)
    requires Inv(w)
    ensures Inv(Step(w, Delete(id)))
  {
    var w' := Step(w, Delete(id));
    forall f | f in w'.rings ensures Spent(w', f) {
      assert Spent(w, f);
    }
    forall d | d in w'.sessions ensures SessionOk(w', w'.sessions[d]) {
      assert SessionOk(w, w.sessions[d]);
    }
  }

  lemma SessionStepKeeps(w: World, op: Op)
    requires Inv(w) && Legal(w, op) && (op.TimerPosted? || op.DismissOne? || op.DismissAll?)
    ensures Inv(Step(w, op))
  {
    SessionIsOk(w, op.device);
    match op
    case TimerPosted(device, e, clock) =>
      HaEventOk(w, SessionOf(w, device), e, clock);
      SessionReplaced(w, device, S.ApplyEvent(SessionOf(w, device), e, clock).0);
    case DismissOne(device) =>
      SessionReplaced(w, device, S.DropHead(SessionOf(w, device)));
    case DismissAll(device) =>
      SessionReplaced(w, device, S.DropAll(SessionOf(w, device)));
  }

  /** Every legal operation keeps the invariant, and nothing rung or used is forgotten. */
  lemma StepKeeps(w: World, op: Op)
    requires Inv(w) && Legal(w, op)
    ensures Inv(Step(w, op)) && w.rings <= Step(w, op).rings && w.used <= Step(w, op).used
  {
    match op
    case Tick(loaded, env) =>
      PassKeeps(w, loaded, env, |loaded|);
      assert loaded[..|loaded|] == loaded;
    case Restart => RestartKeeps(w);
    case Create(spec, now) => CreateKeeps(w, spec, now);
    case Delete(id) => DeleteKeeps(w, id);
    case _ => SessionStepKeeps(w, op);
  }

  // ---- At most one ring

  lemma LegalPrefix(w: World, ops: seq<Op>)
    requires LegalRun(w, ops) && |ops| > 0
    ensures LegalRun(w, ops[..|ops| - 1]) && Legal(Run(w, ops[..|ops| - 1]), ops[|ops| - 1])
  {
    var earlier := ops[..|ops| - 1];
    forall i | 0 <= i < |earlier| ensures Legal(Run(w, earlier[..i]), earlier[i]) {
      assert earlier[..i] == ops[..i];
      assert Legal(Run(w, ops[..i]), ops[i]);
    }
    assert Legal(Run(w, ops[..|ops| - 1]), ops[|ops| - 1]);
  }

  /** Over every legal run - any ticks, clock steps either way, outages, failed writes, dismissals and
      recorded restarts - the invariant holds and no occurrence has rung twice. */
  lemma {:induction false} AtMostOneRing(w: World, ops: seq<Op>)
    requires Inv(w) && LegalRun(w, ops)
    ensures Inv(Run(w, ops)) && NoRepeats(Run(w, ops).rings)
    ensures w.rings <= Run(w, ops).rings && w.used <= Run(w, ops).used
  {
    if |ops| > 0 {
      LegalPrefix(w, ops);
      AtMostOneRing(w, ops[..|ops| - 1]);
      StepKeeps(Run(w, ops[..|ops| - 1]), ops[|ops| - 1]);
    }
  }

  // ---- The stored fire

  /** The row after an advance past `floor`: disabled, as it was, or strictly beyond the floor. */
  lemma AdvanceMoves(w: World, row: Row, floor: int, occurrence: int, faults: Faults)
    requires IsEnabledRow(w, row) && ValidSpec(row.spec) && row.next.Some? && floor >= row.next.value
    ensures var rows := Advance(w, row, floor, occurrence, faults).rows;
            && row.spec.id in rows
            && var row' := rows[row.spec.id];
               && SamePayloads(row.spec, row'.spec)
               && (row'.next.None? ==> !row'.spec.enabled)
               && (row'.next.Some? ==> row'.next == row.next || row'.next.value > floor)
               && (row'.spec.enabled && faults == Faults(false, false) ==>
                     row'.next.value > floor && row'.last == Some(occurrence) && row'.spec == row.spec)
  {
    if NextFire(row.spec, floor).Some? {
      NextFires(row.spec, floor);
    }
  }

  /** A pass never moves a stored fire back, and leaves it alone or moves it strictly on; a backlog
      beyond the grace window is skipped to a fire after now in one step. */
  lemma ScheduleAdvances(w: World, row: Row, now: int, clock: real, faults: Faults, device: Device)
    requires Inv(w) && IsEnabledRow(w, row) && row.next.Some?
    ensures var rows := Reconcile(w, row, now, clock, faults, device).rows;
            && row.spec.id in rows
            && var row' := rows[row.spec.id];
               && (row'.next.None? ==> !row'.spec.enabled)
               && (row'.next.Some? ==> row'.next == row.next || row'.next.value > row.next.value)
               && (now > row.next.value + LATE_GRACE && faults == Faults(false, false) && row'.spec.enabled ==>
                     row'.next.value > now)
  {
    assert SoundRow(row.spec.id, row);
    if now >= row.next.value {
      var late := WithinGrace(row.next.value, now);
      var day := OccurrenceKey(row.spec, row.next.value);
      FireFrame(w, row, day, device, clock);
      var w1 := if row.last != Some(day) && late then FireAlarm(w, row.spec, day, device, clock) else w;
      AdvanceMoves(w1, row, if late then row.next.value else now, day, faults);
    }
  }

  /** The later row is no earlier: a disabled row stays as it is, an enabled one is disabled or never moved back. */
  ghost predicate NotBack(a: Row, b: Row) {
    && (!a.spec.enabled ==> b == a)
    && (a.next.Some? ==> if b.next.Some? then b.next.value >= a.next.value else !b.spec.enabled)
  }

  lemma ReconcileNotBack(w: World, row: Row, env: Surroundings, id: string)
    requires Inv(w) && IsEnabledRow(w, row) && id in w.rows
    ensures var w' := ReconcileAt(w, row, env); id in w'.rows && NotBack(w.rows[id], w'.rows[id])
  {
    ReconcileFrame(w, row, env.now, env.clock, env.faults(row.spec.id), env.devices(row.spec.deviceId));
    if id == row.spec.id && row.next.Some? {
      ScheduleAdvances(w, row, env.now, env.clock, env.faults(id), env.devices(row.spec.deviceId));
    }
  }

  /** The row is still there, and no earlier. */
  ghost predicate Forward(a: World, b: World, id: string) {
    id in a.rows ==> id in b.rows && NotBack(a.rows[id], b.rows[id])
  }

  lemma {:induction false} ForwardThrough(w: World, loaded: seq<Row>, env: Surroundings, n: nat, id: string)
    requires n <= |loaded|
    requires forall i :: 0 <= i < n ==> Forward(Pass(w, loaded[..i], env), Pass(w, loaded[..i + 1], env), id)
    ensures Forward(w, Pass(w, loaded[..n], env), id)
  {
    if n > 0 {
      ForwardThrough(w, loaded, env, n - 1, id);
      var i := n - 1;
      assert Forward(Pass(w, loaded[..i], env), Pass(w, loaded[..i + 1], env), id);
    } else {
      assert loaded[..0] == [];
    }
  }

  lemma PassNotBack(w: World, loaded: seq<Row>, env: Surroundings, n: nat, id: string)
    requires Inv(w) && IsLoad(w, loaded) && n <= |loaded| && id in w.rows
    ensures var w' := Pass(w, loaded[..n], env); id in w'.rows && NotBack(w.rows[id], w'.rows[id])
  {
    forall i | 0 <= i < n ensures Forward(Pass(w, loaded[..i], env), Pass(w, loaded[..i + 1], env), id) {
      PassStep(w, loaded, env, i);
      ReconcileNotBack(Pass(w, loaded[..i], env), loaded[i], env, id);
    }
    ForwardThrough(w, loaded, env, n, id);
  }

  lemma TickNotBack(w: World, loaded: seq<Row>, env: Surroundings, id: string)
    requires Inv(w) && IsLoad(w, loaded)
    ensures Pass(w, loaded, env).rows.Keys == w.rows.Keys
    ensures id in w.rows ==> NotBack(w.rows[id], Pass(w, loaded, env).rows[id])
  {
    assert loaded[..|loaded|] == loaded;
    PassKeeps(w, loaded, env, |loaded|);
    if id in w.rows {
      PassNotBack(w, loaded, env, |loaded|, id);
    }
  }

  lemma StepNotBack(w: World, op: Op, id: string)
    requires Inv(w) && Legal(w, op) && id in w.used && id in Step(w, op).rows
    ensures id in w.rows && NotBack(w.rows[id], Step(w, op).rows[id])
  {
    if op.Tick? {
      TickNotBack(w, op.loaded, op.env, id);
    }
  }

  lemma NotBackChain(a: Row, b: Row, c: Row)
    requires NotBack(a, b) && NotBack(b, c)
    ensures NotBack(a, c)
  {
  }

  /** Over every legal run the stored fire of an alarm never moves back, and a disabled alarm stays as it is. */
  lemma {:induction false} ScheduleNeverGoesBack(w: World, ops: seq<Op>, id: string)
    requires Inv(w) && LegalRun(w, ops) && id in w.rows && id in Run(w, ops).rows
    ensures NotBack(w.rows[id], Run(w, ops).rows[id])
  {
    if |ops| > 0 {
      LegalPrefix(w, ops);
      var earlier := ops[..|ops| - 1];
      AtMostOneRing(w, earlier);
      assert id in w.used;
      StepNotBack(Run(w, earlier), ops[|ops| - 1], id);
      ScheduleNeverGoesBack(w, earlier, id);
      NotBackChain(w.rows[id], Run(w, earlier).rows[id], Run(w, ops).rows[id]);
    }
  }
}

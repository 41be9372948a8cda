/** Runs whose ticks are on time: every firing rings exactly once. */
module PunctualAlarms {
  import opened Options
  import opened LocalTime
  import opened Alarms
  import opened AlarmScheduler
  import opened AlarmRuns
  import opened AlarmRings
  import S = TimerSession

  // ---- What is asked of a run

  /** Some tick of the run came at or after the firing. */
  ghost predicate Reached(ops: seq<Op>, fire: int) {
    exists i :: 0 <= i < |ops| && ops[i].Tick? && fire <= ops[i].env.now
  }

  /** The tick is inside the firing's grace window, on a ready device, and the row can be written. */
  predicate Attends(env: Surroundings, spec: AlarmSpec, fire: int) {
    WithinGrace(fire, env.now) && env.devices(spec.deviceId).Ready? && env.faults(spec.id) == Faults(false, false)
  }

  /** A firing the alarm can have after an instant. */
  ghost predicate FiresAfter(spec: AlarmSpec, from: int, fire: int) {
    IsFiring(spec, fire) && fire > from
  }

  /** The first tick at or after each firing attends it. What later ticks meet is left open. */
  ghost predicate Punctual(spec: AlarmSpec, from: int, ops: seq<Op>) {
    forall i, fire :: (0 <= i < |ops| && ops[i].Tick? && FiresAfter(spec, from, fire) && fire <= ops[i].env.now
                       && !Reached(ops[..i], fire)) ==> Attends(ops[i].env, spec, fire)
  }

  ghost predicate NeverDeleted(ops: seq<Op>, id: string) {
    forall i :: 0 <= i < |ops| && ops[i].Delete? ==> ops[i].id != id
  }

  /** No two firings share a grace window. */
  ghost predicate GraceApart(spec: AlarmSpec) {
    forall f1, f2 :: IsFiring(spec, f1) && IsFiring(spec, f2) && f1 < f2 ==> f2 > f1 + LATE_GRACE
  }

  /** A live alarm whose firings have keys and grace windows of their own. */
  ghost predicate Regular(spec: AlarmSpec) {
    ValidSpec(spec) && spec.enabled && GapsStayInOneDay(spec.zone) && GraceApart(spec)
  }

  lemma ReachedNext(ops: seq<Op>, fire: int)
    requires |ops| > 0
    ensures var earlier, last := ops[..|ops| - 1], ops[|ops| - 1];
            Reached(ops, fire) <==> Reached(earlier, fire) || (last.Tick? && fire <= last.env.now)
  {
    var earlier := ops[..|ops| - 1];
    if Reached(earlier, fire) {
      var i :| 0 <= i < |earlier| && earlier[i].Tick? && fire <= earlier[i].env.now;
      assert ops[i] == earlier[i];
    }
    if Reached(ops, fire) {
      var i :| 0 <= i < |ops| && ops[i].Tick? && fire <= ops[i].env.now;
      assert i < |earlier| ==> earlier[i] == ops[i];
    }
  }

  lemma PunctualPrefix(spec: AlarmSpec, from: int, ops: seq<Op>)
    requires Punctual(spec, from, ops) && NeverDeleted(ops, spec.id) && |ops| > 0
    ensures Punctual(spec, from, ops[..|ops| - 1]) && NeverDeleted(ops[..|ops| - 1], spec.id)
  {
    var earlier := ops[..|ops| - 1];
    forall i, fire | 0 <= i < |earlier| && earlier[i].Tick? && FiresAfter(spec, from, fire)
                     && fire <= earlier[i].env.now && !Reached(earlier[..i], fire)
      ensures Attends(earlier[i].env, spec, fire)
    {
      assert earlier[..i] == ops[..i] && earlier[i] == ops[i];
    }
  }

  // ---- What such a run keeps

  /** The row has moved past the firing. */
  predicate Past(row: Row, fire: int) {
    row.next.Some? ==> fire < row.next.value
  }

  /** The row is the alarm's, waiting for a firing of its own, or spent. */
  ghost predicate Waiting(spec: AlarmSpec, from: int, row: Row) {
    row.spec == spec.(enabled := row.next.Some?) && (row.next.Some? ==> FiresAfter(spec, from, row.next.value))
  }

  /** Of the firings, those the row is past have rung, and no other is known. */
  ghost predicate InStep(w: World, spec: AlarmSpec, from: int) {
    && spec.id in w.rows && Waiting(spec, from, w.rows[spec.id])
    && forall fire :: FiresAfter(spec, from, fire) ==>
         && (Firing(spec.id, OccurrenceKey(spec, fire)) in w.rings <==> Past(w.rows[spec.id], fire))
         && (Remembers(w, spec, OccurrenceKey(spec, fire)) ==> Past(w.rows[spec.id], fire))
  }

  /** The row is past exactly the firings some tick has reached. */
  ghost predicate Current(w: World, spec: AlarmSpec, from: int, ops: seq<Op>)
    requires spec.id in w.rows
  {
    forall fire :: FiresAfter(spec, from, fire) ==> (Past(w.rows[spec.id], fire) <==> Reached(ops, fire))
  }

  /** The alarm's row and rings are as they were, and no session has learnt of it. */
  ghost predicate Untouched(a: World, b: World, id: string) {
    && id in a.rows && id in b.rows && b.rows[id] == a.rows[id]
    && (forall day :: Firing(id, day) in b.rings <==> Firing(id, day) in a.rings)
    && (forall s: AlarmSpec, day: int :: s.id == id && Remembers(b, s, day) ==> Remembers(a, s, day))
  }

  lemma UntouchedInStep(a: World, b: World, spec: AlarmSpec, from: int)
    requires InStep(a, spec, from) && Untouched(a, b, spec.id)
    ensures InStep(b, spec, from)
  {
  }

  lemma SessionUntouched(w: World, device: string, s: S.Session, id: string)
    requires SameKnowledge(SessionOf(w, device), s) && id in w.rows
    ensures Untouched(w, w.(sessions := w.sessions[device := s]), id)
  {
  }

  /** Every step but a tick leaves the alarm alone. */
  lemma StepUntouched(w: World, op: Op, id: string)
    requires Inv(w) && Legal(w, op) && !op.Tick? && id in w.rows && !(op.Delete? && op.id == id)
    ensures Untouched(w, Step(w, op), id)
  {
    match op
    case TimerPosted(device, e, clock) =>
      SessionIsOk(w, device);
      HaEventOk(w, SessionOf(w, device), e, clock);
      SessionUntouched(w, device, S.ApplyEvent(SessionOf(w, device), e, clock).0, id);
    case DismissOne(device) => SessionUntouched(w, device, S.DropHead(SessionOf(w, device)), id);
    case DismissAll(device) => SessionUntouched(w, device, S.DropAll(SessionOf(w, device)), id);
    case Create(spec, now) =>
      assert SoundRow(id, w.rows[id]);
    case _ =>
  }

  /** A tick that does not find the alarm due leaves it alone. */
  lemma EarlyTick(w: World, loaded: seq<Row>, env: Surroundings, id: string)
    requires Inv(w) && IsLoad(w, loaded) && id in w.rows
    requires w.rows[id].spec.enabled ==> w.rows[id].next.Some? && env.now < w.rows[id].next.value
    ensures Untouched(w, Pass(w, loaded, env), id)
  {
    if w.rows[id].spec.enabled {
      var k :| 0 <= k < |loaded| && loaded[k] == w.rows[id];
      assert SoundRow(id, w.rows[id]);
      PassAround(w, loaded, env, k);
    } else {
      forall i | 0 <= i < |loaded| ensures loaded[i].spec.id != id {
        assert IsEnabledRow(w, loaded[i]);
      }
      PassElsewhere(w, loaded, env, 0, |loaded|, id);
      assert loaded[..0] == [] && loaded[..|loaded|] == loaded;
    }
  }

  /** The row after its occurrence was attended. */
  function Onward(row: Row): Row
    requires row.next.Some?
  {
    var next := NextFire(row.spec, row.next.value);
    Row(row.spec.(enabled := next.Some?), next, Some(DueFiring(row).day))
  }

  lemma Attended(w: World, row: Row, env: Surroundings)
    requires Inv(w) && IsEnabledRow(w, row) && row.next.Some? && Attends(env, row.spec, row.next.value)
    requires Unseen(w, row)
    ensures var w', id := ReconcileAt(w, row, env), row.spec.id;
            && id in w'.rows && w'.rows[id] == Onward(row) && w'.rings == w.rings + [DueFiring(row)]
            && (forall s: AlarmSpec, day: int :: s.id == id ==>
                  (Remembers(w', s, day) ==> Remembers(w, s, day) || day == DueFiring(row).day))
  {
    var day := DueFiring(row).day;
    FireRings(w, row.spec, day, Ready, env.clock);
    FireRemembers(w, row.spec, day, Ready, env.clock);
    AdvanceFrame(FireAlarm(w, row.spec, day, Ready, env.clock), row, row.next.value, day, Faults(false, false));
  }

  /** The row goes on to the least firing after the one attended, if any is left. */
  lemma OnwardPast(spec: AlarmSpec, from: int, row: Row, fire: int)
    requires ValidSpec(spec) && spec.enabled && Waiting(spec, from, row) && row.next.Some?
    requires FiresAfter(spec, from, fire)
    ensures Waiting(spec, from, Onward(row))
    ensures Past(Onward(row), fire) <==> fire <= row.next.value
  {
    var n := row.next.value;
    assert row.spec == spec;
    if NextFire(spec, n).Some? {
      NextFires(spec, n);
      NextFireIsLeast(spec, n);
    } else {
      NoneMeansNothingLeft(spec, n);
    }
  }

  lemma KeyOfOne(spec: AlarmSpec, f1: int, f2: int)
    requires ValidSpec(spec) && GapsStayInOneDay(spec.zone) && IsFiring(spec, f1) && IsFiring(spec, f2)
    ensures OccurrenceKey(spec, f1) == OccurrenceKey(spec, f2) <==> f1 == f2
  {
    if f1 < f2 {
      KeysOrdered(spec, f1, f2);
    } else if f2 < f1 {
      KeysOrdered(spec, f2, f1);
    }
  }

  /** In a turn of its own that attends it, the alarm rings its due firing and stays in step. */
  lemma AttendedInStep(w: World, row: Row, env: Surroundings, spec: AlarmSpec, from: int)
    requires Inv(w) && IsEnabledRow(w, row) && row.spec.id == spec.id && InStep(w, spec, from)
    requires Regular(spec)
    requires Attends(env, spec, row.next.value)
    ensures InStep(ReconcileAt(w, row, env), spec, from) && ReconcileAt(w, row, env).rows[spec.id] == Onward(row)
  {
    assert row == w.rows[spec.id] && row.spec == spec && row.next.Some?;
    var n, w' := row.next.value, ReconcileAt(w, row, env);
    assert SoundRow(spec.id, row) && !Past(row, n);
    Attended(w, row, env);
    OnwardPast(spec, from, row, n);
    forall fire | FiresAfter(spec, from, fire)
      ensures Firing(spec.id, OccurrenceKey(spec, fire)) in w'.rings <==> Past(Onward(row), fire)
      ensures Remembers(w', spec, OccurrenceKey(spec, fire)) ==> Past(Onward(row), fire)
    {
      OnwardPast(spec, from, row, fire);
      KeyOfOne(spec, fire, n);
    }
  }

  lemma SameUntouched(a: World, b: World, id: string)
    requires SameAlarm(a, b, id) && id in a.rows
    ensures Untouched(a, b, id)
  {
  }

  lemma DueTick(w: World, loaded: seq<Row>, env: Surroundings, spec: AlarmSpec, from: int)
    requires Inv(w) && IsLoad(w, loaded) && InStep(w, spec, from)
    requires Regular(spec)
    requires w.rows[spec.id].next.Some? && Attends(env, spec, w.rows[spec.id].next.value)
    ensures InStep(Pass(w, loaded, env), spec, from)
    ensures Pass(w, loaded, env).rows[spec.id] == Onward(w.rows[spec.id])
  {
    var row := w.rows[spec.id];
    var k :| 0 <= k < |loaded| && loaded[k] == row;
    PassAround(w, loaded, env, k);
    var w1 := Pass(w, loaded[..k], env);
    SameUntouched(w, w1, spec.id);
    UntouchedInStep(w, w1, spec, from);
    AttendedInStep(w1, row, env, spec, from);
    SameUntouched(ReconcileAt(w1, row, env), Pass(w, loaded, env), spec.id);
    UntouchedInStep(ReconcileAt(w1, row, env), Pass(w, loaded, env), spec, from);
  }

  /** One step of a punctual run. */
  lemma StepInStep(w: World, spec: AlarmSpec, from: int, earlier: seq<Op>, op: Op)
    requires Inv(w) && Legal(w, op) && InStep(w, spec, from) && Current(w, spec, from, earlier)
    requires Regular(spec)
    requires Punctual(spec, from, earlier + [op]) && !(op.Delete? && op.id == spec.id)
    ensures InStep(Step(w, op), spec, from) && Current(Step(w, op), spec, from, earlier + [op])
  {
    var row, ops := w.rows[spec.id], earlier + [op];
    assert ops[..|earlier|] == earlier && ops[|earlier|] == op;
    forall fire ensures Reached(ops, fire) <==> Reached(earlier, fire) || (op.Tick? && fire <= op.env.now) {
      ReachedNext(ops, fire);
    }
    if !op.Tick? {
      StepUntouched(w, op, spec.id);
      UntouchedInStep(w, Step(w, op), spec, from);
    } else if row.next.Some? && op.env.now >= row.next.value {
      var n := row.next.value;
      assert !Past(row, n);
      assert Attends(ops[|earlier|].env, spec, n);
      DueTick(w, op.loaded, op.env, spec, from);
      forall fire | FiresAfter(spec, from, fire) ensures Past(Onward(row), fire) <==> Reached(ops, fire) {
        OnwardPast(spec, from, row, fire);
      }
    } else {
      EarlyTick(w, op.loaded, op.env, spec.id);
      UntouchedInStep(w, Step(w, op), spec, from);
    }
  }

  lemma {:induction false} RunInStep(w: World, spec: AlarmSpec, from: int, ops: seq<Op>)
    requires Inv(w) && InStep(w, spec, from) && Current(w, spec, from, [])
    requires Regular(spec)
    requires LegalRun(w, ops) && Punctual(spec, from, ops) && NeverDeleted(ops, spec.id)
    ensures InStep(Run(w, ops), spec, from) && Current(Run(w, ops), spec, from, ops)
  {
    if |ops| > 0 {
      var earlier, last := ops[..|ops| - 1], ops[|ops| - 1];
      LegalPrefix(w, ops);
      PunctualPrefix(spec, from, ops);
      RunInStep(w, spec, from, earlier);
      AtMostOneRing(w, earlier);
      assert ops == earlier + [last];
      StepInStep(Run(w, earlier), spec, from, earlier, last);
    } else {
      assert ops == [];
    }
  }

  lemma CreatedInStep(w: World, spec: AlarmSpec, from: int)
    requires Inv(w) && spec.id !in w.used && ValidSpec(spec) && spec.enabled && NextFire(spec, from).Some?
    ensures InStep(Step(w, Create(spec, from)), spec, from) && Current(Step(w, Create(spec, from)), spec, from, [])
  {
    NextFires(spec, from);
    NextFireIsLeast(spec, from);
    SessionIsOk(w, spec.deviceId);
    forall day ensures !Remembers(w, spec, day) && Firing(spec.id, day) !in w.rings {
      assert Firing(spec.id, day) in w.fired || Firing(spec.id, day) in w.rings ==> spec.id in w.used;
    }
  }

  /** An alarm is created in any world, and then anything legal happens to any alarms and devices, this one not being
      deleted. If the first tick at or after each of its firings attends it, the firings that ring are exactly those
      some tick has reached, and each rings once. */
  lemma PunctualRings(w: World, spec: AlarmSpec, from: int, ops: seq<Op>)
    requires Inv(w) && spec.id !in w.used && Regular(spec)
    requires LegalRun(Step(w, Create(spec, from)), ops) && Punctual(spec, from, ops) && NeverDeleted(ops, spec.id)
    ensures var rings := Run(Step(w, Create(spec, from)), ops).rings;
            && NoRepeats(rings)
            && forall fire :: FiresAfter(spec, from, fire) ==>
                 (Firing(spec.id, OccurrenceKey(spec, fire)) in rings <==> Reached(ops, fire))
  {
    var w1 := Step(w, Create(spec, from));
    CreateKeeps(w, spec, from);
    AtMostOneRing(w1, ops);
    if NextFire(spec, from).Some? {
      CreatedInStep(w, spec, from);
      RunInStep(w1, spec, from, ops);
    } else {
      NoneMeansNothingLeft(spec, from);
    }
  }

  // ---- Where firings are apart

  /** No shift sets the clock forward by the best part of a day: 23 hours 50 minutes or more. */
  ghost predicate ModerateShifts(z: Zone) {
    forall j :: 0 <= j < |z.shifts| ==> Jump(z, j) < DAY - LATE_GRACE
  }

  /** A wall time in a gap is resolved to the shift itself. */
  lemma GapFiresAtShift(z: Zone, j: nat, w: int)
    requires ValidZone(z) && j < |z.shifts| && w % 60 == 0
    requires z.shifts[j].at + Offset(z, j) <= w < z.shifts[j].at + Offset(z, j + 1)
    ensures Resolve(z, w) == z.shifts[j].at
  {
    var fire, end := Resolve(z, w), z.shifts[j].at + Offset(z, j + 1);
    GapResolvesToEnd(z, j, w);
    var p := Period(z, fire);
    PeriodBounds(z, fire);
    if p < j {
      Apart(z, p, j);
    } else if p > j + 1 {
      Apart(z, j, p - 1);
    }
  }

  /** Two instants: in one period, with a shift between, or two days apart. */
  lemma TwoInstants(z: Zone, t1: int, t2: int)
    requires ValidZone(z) && ModerateShifts(z) && t1 <= t2
    ensures t2 - t1 >= DAY || t2 - t1 == Local(z, t2) - Local(z, t1)
            || (t2 - t1 > Local(z, t2) - Local(z, t1) - (DAY - LATE_GRACE) && Period(z, t2) > Period(z, t1))
  {
    var p1, p2 := Period(z, t1), Period(z, t2);
    PeriodBounds(z, t1);
    PeriodBounds(z, t2);
    PeriodOrder(z, t1, t2);
    if p1 + 1 < p2 {
      Apart(z, p1, p2 - 1);
    } else if p2 == p1 + 1 {
      assert Jump(z, p1) < DAY - LATE_GRACE;
    }
  }

  lemma ShowsAtLeast(z: Zone, w: int)
    requires ValidZone(z) && w % 60 == 0
    ensures Local(z, Resolve(z, w)) >= w
  {
    var k := ResolveSteps(z, w);
    assert Shown(z, w + 60 * k);
  }

  lemma FiresApart(z: Zone, w1: int, w2: int)
    requires ValidZone(z) && ModerateShifts(z) && w1 % 60 == 0 && w2 % 60 == 0 && w1 + DAY <= w2
    ensures Resolve(z, w2) > Resolve(z, w1) + LATE_GRACE
  {
    var f1, f2 := Resolve(z, w1), Resolve(z, w2);
    ResolveIncreasing(z, w1, w2);
    ShowsAtLeast(z, w2);
    TwoInstants(z, f1, f2);
    if Shown(z, w1) {
      ShownResolvesToItself(z, w1);
    } else {
      var j := GapAhead(z, w1);
      GapFiresAtShift(z, j, w1);
      GapResolvesToEnd(z, j, w1);
      assert Jump(z, j) < DAY - LATE_GRACE;
      if f2 < f1 + DAY {
        NoShiftSoon(z, j, f2);
      }
    }
  }

  lemma NoShiftSoon(z: Zone, j: nat, t: int)
    requires ValidZone(z) && j < |z.shifts| && z.shifts[j].at <= t < z.shifts[j].at + DAY
    ensures Period(z, t) == j + 1 == Period(z, z.shifts[j].at)
  {
    if j + 1 < |z.shifts| {
      Apart(z, j, j + 1);
    }
    PeriodIs(z, t, j + 1);
    PeriodIs(z, z.shifts[j].at, j + 1);
  }

  /** In such a zone, no two firings of an alarm share a grace window. */
  lemma ModerateIsApart(spec: AlarmSpec)
    requires ValidSpec(spec) && ModerateShifts(spec.zone)
    ensures GraceApart(spec)
  {
    forall f1, f2 | IsFiring(spec, f1) && IsFiring(spec, f2) && f1 < f2 ensures f2 > f1 + LATE_GRACE {
      var d1 :| Matches(spec, d1) && f1 == FireOn(spec, d1);
      var d2 :| Matches(spec, d2) && f2 == FireOn(spec, d2);
      LaterFireLaterDay(spec, d1, d2);
      WallOnMinute(spec, d1);
      WallOnMinute(spec, d2);
      FiresApart(spec.zone, Wall(spec, d1), Wall(spec, d2));
    }
  }
}

/** Which occurrences ring: exactly those taken in by a device that is ready, and never again once closed. */
module AlarmRings {
  import opened Options
  import opened LocalTime
  import opened Alarms
  import opened AlarmScheduler
  import opened AlarmRuns

  /** The occurrence a scheduled row stands for. */
  function DueFiring(row: Row): Firing
    requires row.next.Some?
  {
    Firing(row.spec.id, OccurrenceKey(row.spec, row.next.value))
  }

  /** The occurrence is new: the row does not record it, and the device's session has not seen it. */
  ghost predicate Unseen(w: World, row: Row)
    requires row.next.Some?
  {
    row.last != Some(DueFiring(row).day) && !Remembers(w, row.spec, DueFiring(row).day)
  }

  /** An occurrence due within the grace window rings in its alarm's pass exactly when it is new and the device is
      ready, whatever writes fail. */
  lemma DueRings(w: World, row: Row, now: int, clock: real, faults: Faults, device: Device)
    requires Inv(w) && IsEnabledRow(w, row) && row.next.Some? && WithinGrace(row.next.value, now)
    ensures DueFiring(row) in Reconcile(w, row, now, clock, faults, device).rings
       <==> DueFiring(row) in w.rings || (device.Ready? && Unseen(w, row))
    ensures GapsStayInOneDay(row.spec.zone) ==> row.last != Some(DueFiring(row).day)
  {
    assert SoundRow(row.spec.id, row);
    var day := DueFiring(row).day;
    FireRings(w, row.spec, day, device, clock);
    var w1 := if row.last != Some(day) then FireAlarm(w, row.spec, day, device, clock) else w;
    AdvanceFrame(w1, row, row.next.value, day, faults);
  }

  /** Nothing about this alarm has changed: its row, its rings, what sessions know of it. */
  ghost predicate SameAlarm(a: World, b: World, id: string) {
    && (forall day :: Firing(id, day) in b.rings <==> Firing(id, day) in a.rings)
    && (forall s: AlarmSpec, day: int :: s.id == id ==> (Remembers(b, s, day) <==> Remembers(a, s, day)))
    && a.rows.Keys == b.rows.Keys && (id in a.rows ==> b.rows[id] == a.rows[id])
  }

  lemma SameAlarmChain(a: World, b: World, c: World, id: string)
    requires SameAlarm(a, b, id) && SameAlarm(b, c, id)
    ensures SameAlarm(a, c, id)
  {
  }

  lemma OtherAlarm(a: World, b: World, other: string, id: string)
    requires OnlyAlarm(a, b, other) && other != id
    ensures SameAlarm(a, b, id)
  {
  }

  lemma TurnElsewhere(w: World, row: Row, env: Surroundings, id: string)
    requires Inv(w) && IsEnabledRow(w, row) && row.spec.id != id
    ensures SameAlarm(w, ReconcileAt(w, row, env), id)
  {
    ReconcileFrame(w, row, env.now, env.clock, env.faults(row.spec.id), env.devices(row.spec.deviceId));
    OtherAlarm(w, ReconcileAt(w, row, env), row.spec.id, id);
  }

  lemma {:induction false} SameThrough(w: World, loaded: seq<Row>, env: Surroundings, a: nat, b: nat, id: string)
    requires a <= b <= |loaded|
    requires forall n :: a <= n < b ==> SameAlarm(Pass(w, loaded[..n], env), Pass(w, loaded[..n + 1], env), id)
    ensures SameAlarm(Pass(w, loaded[..a], env), Pass(w, loaded[..b], env), id)
    decreases b
  {
    if a < b {
      SameThrough(w, loaded, env, a, b - 1, id);
      var n := b - 1;
      SameAlarmChain(Pass(w, loaded[..a], env), Pass(w, loaded[..n], env), Pass(w, loaded[..n + 1], env), id);
    }
  }

  lemma PassElsewhere(w: World, loaded: seq<Row>, env: Surroundings, a: nat, b: nat, id: string)
    requires Inv(w) && IsLoad(w, loaded) && a <= b <= |loaded|
    requires forall i :: a <= i < b ==> loaded[i].spec.id != id
    ensures SameAlarm(Pass(w, loaded[..a], env), Pass(w, loaded[..b], env), id)
  {
    forall n | a <= n < b ensures SameAlarm(Pass(w, loaded[..n], env), Pass(w, loaded[..n + 1], env), id) {
      PassStep(w, loaded, env, n);
      TurnElsewhere(Pass(w, loaded[..n], env), loaded[n], env, id);
    }
    SameThrough(w, loaded, env, a, b, id);
  }

  /** The pass seen by one alarm: nothing, its own turn, nothing. */
  lemma PassAround(w: World, loaded: seq<Row>, env: Surroundings, k: nat)
    requires Inv(w) && IsLoad(w, loaded) && k < |loaded|
    ensures var id, w1 := loaded[k].spec.id, Pass(w, loaded[..k], env);
            var w2, w3 := ReconcileAt(w1, loaded[k], env), Pass(w, loaded, env);
            && Inv(w1) && IsEnabledRow(w1, loaded[k]) && Inv(w3)
            && SameAlarm(w, w1, id) && SameAlarm(w2, w3, id)
  {
    var id := loaded[k].spec.id;
    PassKeeps(w, loaded, env, k);
    PassKeeps(w, loaded, env, |loaded|);
    PassElsewhere(w, loaded, env, 0, k, id);
    PassNext(w, loaded, env, k);
    PassElsewhere(w, loaded, env, k + 1, |loaded|, id);
    assert loaded[..0] == [] && loaded[..|loaded|] == loaded;
  }

  /** A tick inside the grace window rings a due occurrence exactly when it is new and its device is ready, and
      then once: whatever writes fail, and whatever happened before. */
  lemma OnTimeRingsOnce(w: World, loaded: seq<Row>, env: Surroundings, k: nat)
    requires Inv(w) && IsLoad(w, loaded) && k < |loaded|
    requires loaded[k].next.Some? && WithinGrace(loaded[k].next.value, env.now)
    ensures var row, w' := loaded[k], Pass(w, loaded, env);
            && NoRepeats(w'.rings)
            && (DueFiring(row) in w'.rings
                <==> DueFiring(row) in w.rings || (env.devices(row.spec.deviceId).Ready? && Unseen(w, row)))
  {
    var row := loaded[k];
    PassAround(w, loaded, env, k);
    var faults, device := env.faults(row.spec.id), env.devices(row.spec.deviceId);
    DueRings(Pass(w, loaded[..k], env), row, env.now, env.clock, faults, device);
  }

  // ---- Closed occurrences never ring again

  lemma ClosedReconcile(w: World, row: Row, env: Surroundings, f: Firing)
    requires Inv(w) && IsEnabledRow(w, row) && f.alarmId == row.spec.id && Closed(w, f)
    ensures var w' := ReconcileAt(w, row, env); Closed(w', f) && (f in w'.rings <==> f in w.rings)
  {
    assert SoundRow(row.spec.id, row);
    if env.now >= row.next.value {
      var day := DueFiring(row).day;
      var late := WithinGrace(row.next.value, env.now);
      var device, faults := env.devices(row.spec.deviceId), env.faults(row.spec.id);
      FireRings(w, row.spec, day, device, env.clock);
      FireFrame(w, row, day, device, env.clock);
      var w1 := if row.last != Some(day) && late then FireAlarm(w, row.spec, day, device, env.clock) else w;
      ClosedAdvance(w1, row, if late then row.next.value else env.now, faults, f);
    }
  }

  lemma ClosedAdvance(w: World, row: Row, floor: int, faults: Faults, f: Firing)
    requires IsEnabledRow(w, row) && SoundRow(row.spec.id, row) && row.next.Some? && floor >= row.next.value
    requires f.alarmId == row.spec.id
    requires Recorded(row, f.day) || (f == DueFiring(row) && faults == Faults(false, false))
    ensures var w' := Advance(w, row, floor, DueFiring(row).day, faults); Closed(w', f) && w'.rings == w.rings
  {
    if NextFire(row.spec, floor).Some? {
      NextFires(row.spec, floor);
      MovedOn(row, NextFire(row.spec, floor).value, f);
    }
  }

  lemma ClosedTurn(w: World, row: Row, env: Surroundings, f: Firing)
    requires Inv(w) && IsEnabledRow(w, row) && Closed(w, f)
    ensures var w' := ReconcileAt(w, row, env); Closed(w', f) && (f in w'.rings <==> f in w.rings)
  {
    if row.spec.id == f.alarmId {
      ClosedReconcile(w, row, env, f);
    } else {
      ReconcileFrame(w, row, env.now, env.clock, env.faults(row.spec.id), env.devices(row.spec.deviceId));
    }
  }

  /** Closed before, closed after, and no more rung than before. */
  ghost predicate StaysClosed(a: World, b: World, f: Firing) {
    Closed(a, f) ==> Closed(b, f) && (f in b.rings <==> f in a.rings)
  }

  lemma {:induction false} ClosedThrough(w: World, loaded: seq<Row>, env: Surroundings, n: nat, f: Firing)
    requires n <= |loaded|
    requires forall i :: 0 <= i < n ==> StaysClosed(Pass(w, loaded[..i], env), Pass(w, loaded[..i + 1], env), f)
    ensures StaysClosed(w, Pass(w, loaded[..n], env), f)
  {
    if n > 0 {
      ClosedThrough(w, loaded, env, n - 1, f);
      var i := n - 1;
      assert StaysClosed(Pass(w, loaded[..i], env), Pass(w, loaded[..i + 1], env), f);
    } else {
      assert loaded[..0] == [];
    }
  }

  lemma ClosedPass(w: World, loaded: seq<Row>, env: Surroundings, n: nat, f: Firing)
    requires Inv(w) && IsLoad(w, loaded) && n <= |loaded| && Closed(w, f)
    ensures var w' := Pass(w, loaded[..n], env); Closed(w', f) && (f in w'.rings <==> f in w.rings)
  {
    forall i | 0 <= i < n ensures StaysClosed(Pass(w, loaded[..i], env), Pass(w, loaded[..i + 1], env), f) {
      PassStep(w, loaded, env, i);
      if Closed(Pass(w, loaded[..i], env), f) {
        ClosedTurn(Pass(w, loaded[..i], env), loaded[i], env, f);
      }
    }
    ClosedThrough(w, loaded, env, n, f);
  }

  lemma ClosedStep(w: World, op: Op, f: Firing)
    requires Inv(w) && Legal(w, op) && Closed(w, f) && f.alarmId in w.used
    ensures Closed(Step(w, op), f) && (f in Step(w, op).rings <==> f in w.rings)
  {
    if op.Tick? {
      ClosedPass(w, op.loaded, op.env, |op.loaded|, f);
      assert op.loaded[..|op.loaded|] == op.loaded;
    }
  }

  /** A closed occurrence does not ring over any legal run, restarts included, unless it had rung already. */
  lemma {:induction false} ClosedNeverRings(w: World, ops: seq<Op>, f: Firing)
    requires Inv(w) && LegalRun(w, ops) && Closed(w, f) && f.alarmId in w.used
    ensures Closed(Run(w, ops), f) && (f in Run(w, ops).rings <==> f in w.rings)
  {
    if |ops| > 0 {
      LegalPrefix(w, ops);
      var earlier := ops[..|ops| - 1];
      AtMostOneRing(w, earlier);
      ClosedNeverRings(w, earlier, f);
      ClosedStep(Run(w, earlier), ops[|ops| - 1], f);
    }
  }

  /** The write that moves a row past its fire goes through in this pass. */
  predicate Written(row: Row, now: int, faults: Faults)
    requires row.next.Some?
  {
    var floor := if WithinGrace(row.next.value, now) then row.next.value else now;
    if NextFire(row.spec, floor).Some? then !faults.persist else !faults.disable
  }

  lemma AdvanceCloses(w: World, row: Row, now: int, faults: Faults)
    requires IsEnabledRow(w, row) && SoundRow(row.spec.id, row) && row.next.Some? && now >= row.next.value
    ensures var floor := if WithinGrace(row.next.value, now) then row.next.value else now;
            var w', f := Advance(w, row, floor, DueFiring(row).day, faults), DueFiring(row);
            && (Closed(w', f) <==> row.last == Some(f.day) || Written(row, now, faults))
            && (Closed(w', f) || IsEnabledRow(w', row))
  {
    var floor := if WithinGrace(row.next.value, now) then row.next.value else now;
    if NextFire(row.spec, floor).Some? {
      NextFires(row.spec, floor);
      MovedOn(row, NextFire(row.spec, floor).value, DueFiring(row));
    }
  }

  lemma ReconcileCloses(w: World, row: Row, env: Surroundings)
    requires Inv(w) && IsEnabledRow(w, row) && row.next.Some? && env.now >= row.next.value
    ensures var w', f := ReconcileAt(w, row, env), DueFiring(row);
            && (Closed(w', f) <==> row.last == Some(f.day) || Written(row, env.now, env.faults(row.spec.id)))
            && (Closed(w', f) || IsEnabledRow(w', row))
  {
    assert SoundRow(row.spec.id, row);
    var day, device := DueFiring(row).day, env.devices(row.spec.deviceId);
    var late := WithinGrace(row.next.value, env.now);
    FireFrame(w, row, day, device, env.clock);
    var w1 := if row.last != Some(day) && late then FireAlarm(w, row.spec, day, device, env.clock) else w;
    AdvanceCloses(w1, row, env.now, env.faults(row.spec.id));
  }

  /** A tick at or after a scheduled fire closes the occurrence, whether it rang or not, exactly when the row records it
      already or the write that moves the row on goes through. Otherwise the row stands. */
  lemma TickCloses(w: World, loaded: seq<Row>, env: Surroundings, k: nat)
    requires Inv(w) && IsLoad(w, loaded) && k < |loaded|
    requires loaded[k].next.Some? && env.now >= loaded[k].next.value
    ensures var row, w', f := loaded[k], Pass(w, loaded, env), DueFiring(loaded[k]);
            && (Closed(w', f) <==> row.last == Some(f.day) || Written(row, env.now, env.faults(row.spec.id)))
            && (Closed(w', f) || IsEnabledRow(w', row))
  {
    PassAround(w, loaded, env, k);
    ReconcileCloses(Pass(w, loaded[..k], env), loaded[k], env);
  }

  /** The tick finds the fire past its grace window, or the device offline or muted. */
  predicate PassedOver(row: Row, env: Surroundings)
    requires row.next.Some?
  {
    env.now >= row.next.value && !(WithinGrace(row.next.value, env.now) && env.devices(row.spec.deviceId).Ready?)
  }

  lemma PassedOverSilently(w: World, row: Row, env: Surroundings)
    requires Inv(w) && IsEnabledRow(w, row) && row.next.Some? && PassedOver(row, env)
    ensures ReconcileAt(w, row, env).rings == w.rings
  {
    var day, device, faults := DueFiring(row).day, env.devices(row.spec.deviceId), env.faults(row.spec.id);
    var late := WithinGrace(row.next.value, env.now);
    FireRings(w, row.spec, day, device, env.clock);
    var w1 := if row.last != Some(day) && late then FireAlarm(w, row.spec, day, device, env.clock) else w;
    AdvanceFrame(w1, row, if late then row.next.value else env.now, day, faults);
  }

  lemma MissedTick(w: World, loaded: seq<Row>, env: Surroundings, k: nat)
    requires Inv(w) && IsLoad(w, loaded) && k < |loaded|
    requires loaded[k].next.Some? && PassedOver(loaded[k], env) && DueFiring(loaded[k]) !in w.rings
    ensures var w', f := Pass(w, loaded, env), DueFiring(loaded[k]);
            Inv(w') && f.alarmId in w'.used && f !in w'.rings
  {
    var id, w1 := loaded[k].spec.id, Pass(w, loaded[..k], env);
    PassAround(w, loaded, env, k);
    PassedOverSilently(w1, loaded[k], env);
    assert DueFiring(loaded[k]) !in ReconcileAt(w1, loaded[k], env).rings;
    PassUses(w, loaded, env, id);
  }

  lemma PassUses(w: World, loaded: seq<Row>, env: Surroundings, id: string)
    requires Inv(w) && IsLoad(w, loaded) && id in w.rows
    ensures id in Pass(w, loaded, env).used
  {
    PassKeeps(w, loaded, env, |loaded|);
    assert loaded[..|loaded|] == loaded;
    assert SoundRow(id, w.rows[id]);
  }

  // ---- Occurrences passed over

  lemma Extended(w: World, ops: seq<Op>, op: Op)
    requires LegalRun(w, ops) && Legal(Run(w, ops), op)
    ensures LegalRun(w, ops + [op]) && Run(w, ops + [op]) == Step(Run(w, ops), op)
  {
    var more := ops + [op];
    assert more[..|ops|] == ops;
    forall i | 0 <= i < |more| ensures Legal(Run(w, more[..i]), more[i]) {
      if i < |ops| {
        assert more[..i] == ops[..i];
        assert Legal(Run(w, ops[..i]), ops[i]);
      }
    }
  }

  lemma {:induction false} Deleted(w: World, ids: set<string>) returns (ops: seq<Op>)
    ensures LegalRun(w, ops) && Run(w, ops) == w.(rows := w.rows - ids)
    decreases |ids|
  {
    ops := [];
    if ids == {} {
      assert w.rows - ids == w.rows;
    } else {
      var id :| id in ids;
      ops := Deleted(w, ids - {id});
      Extended(w, ops, Delete(id));
      ops := ops + [Delete(id)];
      assert w.rows - (ids - {id}) - {id} == w.rows - ids;
    }
  }

  /** An occurrence still open can ring: with the other alarms deleted a restart is legal, and the next tick rings
      it. */
  lemma OpenCanRing(w: World, row: Row) returns (ops: seq<Op>)
    requires Inv(w) && IsEnabledRow(w, row) && row.next.Some? && row.last != Some(DueFiring(row).day)
    requires DueFiring(row) !in w.rings
    ensures LegalRun(w, ops) && DueFiring(row) in Run(w, ops).rings
  {
    var id := row.spec.id;
    var deletions := Deleted(w, w.rows.Keys - {id});
    var w1 := Run(w, deletions);
    AtMostOneRing(w, deletions);
    forall g | g in w1.rings ensures Closed(w1, g) {
      assert Spent(w1, g);
    }
    Extended(w, deletions, Restart);
    RestartKeeps(w1);
    var w2 := Step(w1, Restart);
    var tick := TickAt(row, row.next.value, Ready);
    TickAtLegal(w2, row, row.next.value, Ready);
    RingsAgain(w2, row, tick.env);
    Extended(w, deletions + [Restart], tick);
    ops := deletions + [Restart] + [tick];
  }

  /** Whatever legally follows, the occurrence does not ring. */
  ghost predicate NeverRings(w: World, f: Firing) {
    forall ops :: LegalRun(w, ops) ==> f !in Run(w, ops).rings
  }

  /** An occurrence passed over by a tick, its device offline or muted or its grace window gone, is lost for good,
      however soon the device is back, exactly when the row records it already or the row's write goes through. When
      the write fails, a restart can make the occurrence ring after all. */
  lemma MissedForGood(w: World, loaded: seq<Row>, env: Surroundings, k: nat)
    requires Inv(w) && IsLoad(w, loaded) && k < |loaded|
    requires loaded[k].next.Some? && PassedOver(loaded[k], env) && DueFiring(loaded[k]) !in w.rings
    ensures var row := loaded[k];
            NeverRings(Pass(w, loaded, env), DueFiring(row))
            <==> row.last == Some(DueFiring(row).day) || Written(row, env.now, env.faults(row.spec.id))
  {
    var row, w', f := loaded[k], Pass(w, loaded, env), DueFiring(loaded[k]);
    MissedTick(w, loaded, env, k);
    TickCloses(w, loaded, env, k);
    if Closed(w', f) {
      forall ops | LegalRun(w', ops) ensures f !in Run(w', ops).rings {
        ClosedNeverRings(w', ops, f);
      }
    } else {
      var ops := OpenCanRing(w', row);
    }
  }

  // ---- Runs of a single alarm

  const EMPTY := World(map[], map[], [], [], {})

  /** A tick over one row, with every write succeeding and every device in one state. */
  function TickAt(row: Row, now: int, device: Device): Op {
    TickWith(row, now, device, Faults(false, false))
  }

  function TickWith(row: Row, now: int, device: Device, faults: Faults): Op {
    Tick([row], Surroundings(now, 0.0, id => faults, d => device))
  }

  /** A world holding one enabled alarm. */
  ghost predicate Holds(w: World, row: Row) {
    Inv(w) && w.rows.Keys == {row.spec.id} && IsEnabledRow(w, row)
  }

  lemma TickAtLegal(w: World, row: Row, now: int, device: Device)
    requires Holds(w, row)
    ensures var tick := TickAt(row, now, device);
            && Legal(w, tick) && IsLoad(w, [row])
            && Step(w, tick) == Reconcile(w, row, now, 0.0, Faults(false, false), device)
  {
    TickWithLegal(w, row, now, device, Faults(false, false));
  }

  lemma TickWithLegal(w: World, row: Row, now: int, device: Device, faults: Faults)
    requires Holds(w, row)
    ensures var tick := TickWith(row, now, device, faults);
            Legal(w, tick) && IsLoad(w, [row]) && Step(w, tick) == Reconcile(w, row, now, 0.0, faults, device)
  {
    assert w.rows[row.spec.id] == row;
    assert [row][..0] == [];
    var env := TickWith(row, now, device, faults).env;
    assert Pass(w, [], env) == w;
  }

  lemma Created(spec: AlarmSpec, now: int)
    requires ValidSpec(spec) && spec.enabled
    ensures Legal(EMPTY, Create(spec, now))
    ensures Holds(Step(EMPTY, Create(spec, now)), Row(spec, NextFire(spec, now), None))
    ensures Step(EMPTY, Create(spec, now)).rings == [] && Step(EMPTY, Create(spec, now)).sessions == map[]
  {
    FreshTable(map[]);
    CreateKeeps(EMPTY, spec, now);
  }

  /** The input: any alarm whose device is offline or muted when its first fire is ticked. It never rings that
      occurrence, although a tick within the grace window finds the device ready. */
  lemma AwayAtFireTime(spec: AlarmSpec, now: int, away: Device, back: int) returns (row: Row, tick: Op, late: Op)
    requires ValidSpec(spec) && spec.enabled && NextFire(spec, now).Some? && !away.Ready?
    requires WithinGrace(NextFire(spec, now).value, back)
    ensures row == Row(spec, NextFire(spec, now), None) && tick == TickAt(row, NextFire(spec, now).value, away)
    ensures var w := Step(Step(EMPTY, Create(spec, now)), tick);
            && late.Tick? && late.env.now == back && Legal(w, late)
            && (forall d :: late.env.devices(d) == Ready)
            && DueFiring(row) !in Step(w, late).rings
  {
    var w0, fire := Step(EMPTY, Create(spec, now)), NextFire(spec, now).value;
    row := Row(spec, NextFire(spec, now), None);
    tick := TickAt(row, fire, away);
    Created(spec, now);
    TickAtLegal(w0, row, fire, away);
    MissedTick(w0, [row], tick.env, 0);
    TickCloses(w0, [row], tick.env, 0);
    var w := Step(w0, tick);
    var loaded := LoadOf(w, w.rows.Keys);
    late := Tick(loaded, Surroundings(back, 0.0, id => Faults(false, false), d => Ready));
    ClosedStep(w, late, DueFiring(row));
  }

  /** The input for the other outcome: any alarm whose device is away at its first fire while the row cannot be
      written. A restart is legal, and a tick at the same instant on a ready device rings the occurrence. */
  lemma AwayThenRestarted(spec: AlarmSpec, now: int, away: Device) returns (row: Row, ops: seq<Op>)
    requires ValidSpec(spec) && spec.enabled && NextFire(spec, now).Some? && !away.Ready?
    ensures row == Row(spec, NextFire(spec, now), None)
    ensures ops == [TickWith(row, row.next.value, away, Faults(true, true)), Restart,
                    TickAt(row, row.next.value, Ready)]
    ensures var w := Step(EMPTY, Create(spec, now));
            && LegalRun(w, ops) && Run(w, ops[..1]).rings == [] && Run(w, ops).rings == [DueFiring(row)]
  {
    var w0, fire := Step(EMPTY, Create(spec, now)), NextFire(spec, now).value;
    row := Row(spec, NextFire(spec, now), None);
    Created(spec, now);
    var missed := TickWith(row, fire, away, Faults(true, true));
    UnwrittenAway(w0, row, away);
    RestartedRings(Step(w0, missed), row);
    ops := [missed, Restart, TickAt(row, fire, Ready)];
    ThreeOps(w0, missed, Restart, TickAt(row, fire, Ready));
  }

  lemma ThreeOps(w: World, a: Op, b: Op, c: Op)
    requires Legal(w, a) && Legal(Step(w, a), b) && Legal(Step(Step(w, a), b), c)
    ensures LegalRun(w, [a, b, c]) && Run(w, [a, b, c]) == Step(Step(Step(w, a), b), c)
    ensures Run(w, [a, b, c][..1]) == Step(w, a)
  {
    FirstOp(w, a);
    Extended(w, [a], b);
    Extended(w, [a, b], c);
    assert [a, b] + [c] == [a, b, c] && [a] + [b] == [a, b] && [a, b, c][..1] == [a];
  }

  lemma FirstOp(w: World, a: Op)
    requires Legal(w, a)
    ensures LegalRun(w, [a]) && Run(w, [a]) == Step(w, a)
  {
    assert [a][..0] == [];
  }

  lemma UnwrittenAway(w: World, row: Row, away: Device)
    requires Holds(w, row) && row.next.Some? && !away.Ready? && w.rings == []
    ensures var tick := TickWith(row, row.next.value, away, Faults(true, true));
            Legal(w, tick) && Holds(Step(w, tick), row) && Step(w, tick).rings == []
  {
    var tick := TickWith(row, row.next.value, away, Faults(true, true));
    TickWithLegal(w, row, row.next.value, away, Faults(true, true));
    PassedOverSilently(w, row, tick.env);
    ReconcileKeeps(w, row, row.next.value, 0.0, Faults(true, true), away);
    FireRings(w, row.spec, DueFiring(row).day, away, 0.0);
  }

  lemma RestartedRings(w: World, row: Row)
    requires Holds(w, row) && row.next.Some? && row.last != Some(DueFiring(row).day) && w.rings == []
    ensures var w1, tick := Step(w, Restart), TickAt(row, row.next.value, Ready);
            Legal(w, Restart) && Legal(w1, tick) && Step(w1, tick).rings == [DueFiring(row)]
  {
    RestartKeeps(w);
    var w1, tick := Step(w, Restart), TickAt(row, row.next.value, Ready);
    TickAtLegal(w1, row, row.next.value, Ready);
    RingsAgain(w1, row, tick.env);
  }

  // ---- Restarts

  /** A load of the table that begins with a given enabled row. */
  lemma LoadFrom(w: World, first: Row) returns (loaded: seq<Row>)
    requires RowsOk(w) && IsEnabledRow(w, first)
    ensures IsLoad(w, loaded) && |loaded| > 0 && loaded[0] == first
  {
    var rest := LoadOf(w, w.rows.Keys - {first.spec.id});
    loaded := [first] + rest;
    forall id | id in w.rows && w.rows[id].spec.enabled ensures w.rows[id] in loaded {
      if id != first.spec.id {
        assert w.rows[id] in rest;
      }
    }
  }

  lemma {:induction false} LoadOf(w: World, ids: set<string>) returns (loaded: seq<Row>)
    requires RowsOk(w) && ids <= w.rows.Keys
    ensures forall i :: 0 <= i < |loaded| ==> IsEnabledRow(w, loaded[i]) && loaded[i].spec.id in ids
    ensures forall i, j :: 0 <= i < j < |loaded| ==> loaded[i].spec.id != loaded[j].spec.id
    ensures forall id :: id in ids && w.rows[id].spec.enabled ==> w.rows[id] in loaded
    decreases |ids|
  {
    if ids == {} {
      loaded := [];
    } else {
      var id :| id in ids;
      var rest := LoadOf(w, ids - {id});
      assert SoundRow(id, w.rows[id]);
      loaded := if w.rows[id].spec.enabled then [w.rows[id]] + rest else rest;
    }
  }

  /** Whatever legally follows a restart now, nothing rings twice. */
  ghost predicate SafeToRestart(w: World) {
    forall ops :: LegalRun(Step(w, Restart), ops) ==> NoRepeats(Run(Step(w, Restart), ops).rings)
  }

  /** A ring that its row has not recorded rings again in the first tick after a restart, on a ready device. */
  lemma UnrecordedRestartRepeats(w: World, f: Firing) returns (tick: Op)
    requires Inv(w) && f in w.rings && !Closed(w, f)
    ensures LegalRun(Step(w, Restart), [tick]) && !NoRepeats(Run(Step(w, Restart), [tick]).rings)
  {
    var w0, row := Step(w, Restart), w.rows[f.alarmId];
    assert Spent(w, f) && SoundRow(f.alarmId, row);
    var loaded := LoadFrom(w0, row);
    var env := Surroundings(row.next.value, 0.0, id => Faults(false, false), device => Ready);
    tick := Tick(loaded, env);
    RingsAgain(w0, row, env);
    var w1 := ReconcileAt(w0, row, env);
    PassNext(w0, loaded, env, 0);
    assert loaded[..0] == [] && loaded[..|loaded|] == loaded;
    RingsGrow(w0, loaded, env, 1, |loaded|);
    FirstOp(w0, tick);
    TwiceIn(w.rings, f, Pass(w0, loaded, env).rings);
  }

  lemma RingsAgain(w: World, row: Row, env: Surroundings)
    requires RowsOk(w) && w.sessions == map[] && IsEnabledRow(w, row) && row.next.Some? && env.now == row.next.value
    requires row.last != Some(DueFiring(row).day) && env.devices(row.spec.deviceId).Ready?
    ensures ReconcileAt(w, row, env).rings == w.rings + [DueFiring(row)]
  {
    var day, device := DueFiring(row).day, env.devices(row.spec.deviceId);
    FireRings(w, row.spec, day, device, env.clock);
    AdvanceFrame(FireAlarm(w, row.spec, day, device, env.clock), row, row.next.value, day, env.faults(row.spec.id));
  }

  lemma FireGrows(w: World, spec: AlarmSpec, day: int, device: Device, clock: real)
    ensures w.rings <= FireAlarm(w, spec, day, device, clock).rings
  {
  }

  lemma {:induction false} RingsGrow(w: World, loaded: seq<Row>, env: Surroundings, a: nat, b: nat)
    requires a <= b <= |loaded|
    ensures Pass(w, loaded[..a], env).rings <= Pass(w, loaded[..b], env).rings
    decreases b
  {
    if a < b {
      RingsGrow(w, loaded, env, a, b - 1);
      PassNext(w, loaded, env, b - 1);
      ReconcileGrows(Pass(w, loaded[..b - 1], env), loaded[b - 1], env);
    }
  }

  lemma ReconcileGrows(w: World, row: Row, env: Surroundings)
    ensures w.rings <= ReconcileAt(w, row, env).rings
  {
    if row.next.Some? && env.now >= row.next.value {
      var day, device, faults := DueFiring(row).day, env.devices(row.spec.deviceId), env.faults(row.spec.id);
      var late := WithinGrace(row.next.value, env.now);
      var floor := if late then row.next.value else env.now;
      FireGrows(w, row.spec, day, device, env.clock);
      AdvanceFrame(w, row, floor, day, faults);
      AdvanceFrame(FireAlarm(w, row.spec, day, device, env.clock), row, floor, day, faults);
    }
  }

  lemma TwiceIn(before: seq<Firing>, f: Firing, after: seq<Firing>)
    requires f in before && before + [f] <= after
    ensures !NoRepeats(after)
  {
    var i :| 0 <= i < |before| && before[i] == f;
    assert after[i] == (before + [f])[i] && after[|before|] == (before + [f])[|before|];
  }

  /** A restart is safe for everything that can legally follow exactly when every ring is recorded in its row. */
  lemma RestartSafeExactly(w: World)
    requires Inv(w)
    ensures SafeToRestart(w) <==> Settled(w)
  {
    if Settled(w) {
      RestartKeeps(w);
      forall ops | LegalRun(Step(w, Restart), ops) ensures NoRepeats(Run(Step(w, Restart), ops).rings) {
        AtMostOneRing(Step(w, Restart), ops);
      }
    } else {
      var f :| f in w.rings && !Closed(w, f);
      var tick := UnrecordedRestartRepeats(w, f);
    }
  }

  /** The input: any alarm that rings on time while its row cannot be written. */
  lemma UnsettledByFailedWrite(spec: AlarmSpec, now: int) returns (tick: Op)
    requires ValidSpec(spec) && spec.enabled && NextFire(spec, now).Some?
    ensures var w := Step(EMPTY, Create(spec, now));
            && Legal(w, tick) && Inv(Step(w, tick)) && !Settled(Step(w, tick)) && !SafeToRestart(Step(w, tick))
  {
    var w, fire := Step(EMPTY, Create(spec, now)), NextFire(spec, now).value;
    var row, faults := Row(spec, NextFire(spec, now), None), Faults(true, true);
    Created(spec, now);
    tick := TickWith(row, fire, Ready, faults);
    TickWithLegal(w, row, fire, Ready, faults);
    RingsAgain(w, row, tick.env);
    ReconcileKeeps(w, row, fire, 0.0, faults, Ready);
    ReconcileCloses(w, row, tick.env);
    assert DueFiring(row) in Step(w, tick).rings;
    RestartSafeExactly(Step(w, tick));
  }

  // ---- Firings that share a key

  lemma NextIs(spec: AlarmSpec, after: int, day: int)
    requires ValidSpec(spec) && spec.enabled && spec.recurrence.Daily?
    requires FireOn(spec, day - 1) <= after < FireOn(spec, day)
    ensures NextFire(spec, after) == Some(FireOn(spec, day))
  {
    NextFireNone(spec, after);
    NextFireIsLeast(spec, after);
    var fire := NextFire(spec, after).value;
    assert Matches(spec, day);
    assert IsFiring(spec, FireOn(spec, day));
    var d :| Matches(spec, d) && fire == FireOn(spec, d);
    if d < day {
      if d < day - 1 {
        FireIncreasing(spec, d, day - 1);
      }
    } else if d > day {
      FireIncreasing(spec, day, d);
    }
  }

  /** A first tick on time rings, and moves the row on. */
  lemma FirstTickRings(w: World, row: Row, fire: int, next: int)
    requires Holds(w, row) && row.next == Some(fire) && row.last.None? && w.sessions == map[] && w.rings == []
    requires NextFire(row.spec, fire) == Some(next)
    ensures var tick := TickAt(row, fire, Ready);
            && Legal(w, tick) && Step(w, tick).rings == [DueFiring(row)]
            && Holds(Step(w, tick), Row(row.spec, Some(next), Some(DueFiring(row).day)))
  {
    var tick := TickAt(row, fire, Ready);
    TickAtLegal(w, row, fire, Ready);
    RingsAgain(w, row, tick.env);
    ReconcileKeeps(w, row, fire, 0.0, Faults(false, false), Ready);
    RowMovesOn(w, row, next);
  }

  lemma RowMovesOn(w: World, row: Row, next: int)
    requires SessionsOk(w) && IsEnabledRow(w, row) && row.next.Some? && NextFire(row.spec, row.next.value) == Some(next)
    ensures Reconcile(w, row, row.next.value, 0.0, Faults(false, false), Ready).rows
         == w.rows[row.spec.id := Row(row.spec, Some(next), Some(DueFiring(row).day))]
  {
    FireRings(w, row.spec, DueFiring(row).day, Ready, 0.0);
  }

  /** The row of a daily alarm that fires on two days running under one key, after each of two ticks. */
  lemma SecondTickIsSilent(w: World, row: Row, fire: int, next: int)
    requires Holds(w, row) && row.next == Some(fire) && row.last.None? && w.sessions == map[] && w.rings == []
    requires NextFire(row.spec, fire) == Some(next)
    requires OccurrenceKey(row.spec, fire) == OccurrenceKey(row.spec, next)
    ensures var row2 := Row(row.spec, Some(next), Some(OccurrenceKey(row.spec, fire)));
            var w1 := Step(w, TickAt(row, fire, Ready));
            var w2 := Step(w1, TickAt(row2, next, Ready));
            && Legal(w, TickAt(row, fire, Ready)) && Legal(w1, TickAt(row2, next, Ready))
            && w1.rings == [DueFiring(row)] && w2.rings == [DueFiring(row)]
  {
    var key := OccurrenceKey(row.spec, fire);
    var row2 := Row(row.spec, Some(next), Some(key));
    FirstTickRings(w, row, fire, next);
    var w1 := Step(w, TickAt(row, fire, Ready));
    TickAtLegal(w1, row2, next, Ready);
    AdvanceFrame(w1, row2, next, key, Faults(false, false));
  }

  /** A daily alarm created just before the first of two firings under one key, and ticked on time at both. */
  lemma SecondDayIsSilent(spec: AlarmSpec, fire: int, next: int)
    requires ValidSpec(spec) && spec.enabled
    requires NextFire(spec, fire - 1) == Some(fire) && NextFire(spec, fire) == Some(next)
    requires OccurrenceKey(spec, fire) == OccurrenceKey(spec, next)
    ensures var w := Step(EMPTY, Create(spec, fire - 1));
            var row, row2 := Row(spec, Some(fire), None), Row(spec, Some(next), Some(OccurrenceKey(spec, fire)));
            var w1 := Step(w, TickAt(row, fire, Ready));
            && Legal(w, TickAt(row, fire, Ready)) && Legal(w1, TickAt(row2, next, Ready))
            && Step(w1, TickAt(row2, next, Ready)).rings == [DueFiring(row)]
  {
    Created(spec, fire - 1);
    SecondTickIsSilent(Step(EMPTY, Create(spec, fire - 1)), Row(spec, Some(fire), None), fire, next);
  }

  lemma FiresInTurn(spec: AlarmSpec, day: int, fire: int, next: int)
    requires ValidSpec(spec) && spec.enabled && spec.recurrence.Daily?
    requires fire == FireOn(spec, day) && next == FireOn(spec, day + 1)
    ensures fire < next && NextFire(spec, fire - 1) == Some(fire) && NextFire(spec, fire) == Some(next)
  {
    FireIncreasing(spec, day - 1, day);
    FireIncreasing(spec, day, day + 1);
    NextIs(spec, fire - 1, day);
    NextIs(spec, fire, day + 1);
  }

  /** The second of two daily firings that share a key does not ring, however promptly it is ticked. */
  ghost predicate SecondIsSkipped(spec: AlarmSpec, fire: int, next: int) {
    var key := OccurrenceKey(spec, fire);
    var w := Step(EMPTY, Create(spec, fire - 1));
    var first, second := TickAt(Row(spec, Some(fire), None), fire, Ready),
                         TickAt(Row(spec, Some(next), Some(key)), next, Ready);
    && fire < next && Legal(w, first) && Legal(Step(w, first), second)
    && Step(Step(w, first), second).rings == [Firing(spec.id, key)]
  }

  lemma SkippedFor(spec: AlarmSpec, day: int, fire: int, next: int)
    requires ValidSpec(spec) && spec.enabled && spec.recurrence.Daily?
    requires fire == FireOn(spec, day) && next == FireOn(spec, day + 1)
    requires OccurrenceKey(spec, fire) == OccurrenceKey(spec, next)
    ensures SecondIsSkipped(spec, fire, next)
  {
    FiresInTurn(spec, day, fire, next);
    SecondDayIsSilent(spec, fire, next);
  }

  /** The input: in any zone with a gap across midnight, the daily alarm set for the gap's first minute, created just
      before. It fires on two days, both ticks are on time with the device ready, and only the first rings. */
  lemma SharedKeyIsSkipped(z: Zone, j: nat, id: string, device: string)
    requires ValidZone(z) && j < |z.shifts| && !GapInOneDay(z, j)
    ensures var spec, day := GapAlarm(z, j, id, device), GapDay(z, j);
            ValidSpec(spec) && SecondIsSkipped(spec, FireOn(spec, day), FireOn(spec, day + 1))
  {
    var spec, day := GapAlarm(z, j, id, device), GapDay(z, j);
    GapSharesKey(z, j, id, device);
    SkippedFor(spec, day, FireOn(spec, day), FireOn(spec, day + 1));
  }

  /** There are such zones: half an hour before midnight, an hour forward. */
  lemma MidnightGap()
    ensures var z := Zone(0, [Shift(84600, 3600)]); ValidZone(z) && !GapInOneDay(z, 0)
  {
  }
}

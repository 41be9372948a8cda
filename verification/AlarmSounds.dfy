/** What a rung alarm leaves on its device: its record at the end of the ring queue of that device's session, and
    nothing changed on any other. */
module AlarmSounds {
  import opened Options
  import opened Alarms
  import opened AlarmScheduler
  import opened AlarmRuns
  import opened AlarmRings
  import S = TimerSession

  /** The finished timer an occurrence is injected as. */
  function AlarmRecord(spec: AlarmSpec, day: int, clock: real): S.TimerRecord {
    var name := if spec.alarmLabel.None? || spec.alarmLabel.value == "" then "Alarm" else spec.alarmLabel.value;
    S.TimerRecord(S.AlarmTimer(spec.id, day), Some(name), 0, 0, false, Some(clock))
  }

  function RingOf(w: World, device: string): seq<S.TimerRecord> {
    SessionOf(w, device).ring
  }

  // ---- One firing

  /** The device's queue has the alarm at its end if it can sound it, and is empty if it cannot; no other has
      changed. */
  ghost predicate Delivered(w: World, w': World, spec: AlarmSpec, day: int, device: Device, clock: real) {
    && (device.Ready? ==> RingOf(w', spec.deviceId) == RingOf(w, spec.deviceId) + [AlarmRecord(spec, day, clock)])
    && (!device.Ready? ==> RingOf(w', spec.deviceId) == [])
    && (forall d :: d != spec.deviceId ==> SessionOf(w', d) == SessionOf(w, d))
  }

  ghost predicate SameQueues(w: World, w': World) {
    forall d :: RingOf(w', d) == RingOf(w, d)
  }

  /** An occurrence the session has not seen is delivered, its timers running on; one it has seen changes no queue. */
  lemma FireDelivers(w: World, spec: AlarmSpec, day: int, device: Device, clock: real)
    requires SessionsOk(w) && spec.id in w.rows && w.rows[spec.id].spec == spec
    ensures var w', f := FireAlarm(w, spec, day, device, clock), Firing(spec.id, day);
            if Remembers(w, spec, day) then w'.fired == w.fired && w'.rings == w.rings && SameQueues(w, w')
            else w'.fired == w.fired + [f] && w'.rings == (if device.Ready? then w.rings + [f] else w.rings)
                 && Delivered(w, w', spec, day, device, clock)
    ensures SessionOf(FireAlarm(w, spec, day, device, clock), spec.deviceId).running
         == if Remembers(w, spec, day) then SessionOf(w, spec.deviceId).running
            else S.Without(SessionOf(w, spec.deviceId).running, S.AlarmTimer(spec.id, day))
  {
    var s, id := SessionOf(w, spec.deviceId), S.AlarmTimer(spec.id, day);
    FireRings(w, spec, day, device, clock);
    FireElsewhere(w, spec, day, device, clock);
    SessionIsOk(w, spec.deviceId);
    FiringSession(w, s, spec, day, Some(clock));
    RingIsKnown(w, s, id);
    if id in s.lastPayload {
      assert s.lastPayload[id] == AlarmEvent(spec, day);
    }
  }

  // ---- One alarm's pass

  /** The pass fires: the occurrence is due by no more than ten minutes, not recorded by the row and not seen. */
  ghost predicate Fires(w: World, row: Row, now: int) {
    row.next.Some? && 0 <= now - row.next.value <= 600 && Unseen(w, row)
  }

  /** A pass that fires takes its occurrence in and delivers it; any other leaves every queue alone. */
  lemma PassDelivers(w: World, row: Row, env: Surroundings)
    requires Inv(w) && IsEnabledRow(w, row)
    ensures var w' := ReconcileAt(w, row, env);
            if Fires(w, row, env.now) then
              var f, device := DueFiring(row), env.devices(row.spec.deviceId);
              && w'.fired == w.fired + [f] && w'.rings == (if device.Ready? then w.rings + [f] else w.rings)
              && Delivered(w, w', row.spec, f.day, device, env.clock)
            else w'.fired == w.fired && w'.rings == w.rings && SameQueues(w, w')
  {
    if row.next.Some? && env.now >= row.next.value {
      var day, device, faults := DueFiring(row).day, env.devices(row.spec.deviceId), env.faults(row.spec.id);
      var late := WithinGrace(row.next.value, env.now);
      FireDelivers(w, row.spec, day, device, env.clock);
      var w1 := if row.last != Some(day) && late then FireAlarm(w, row.spec, day, device, env.clock) else w;
      AdvanceFrame(w1, row, if late then row.next.value else env.now, day, faults);
    }
  }

  // ---- One tick

  predicate OnDevice(w: World, f: Firing, device: string) {
    f.alarmId in w.rows && w.rows[f.alarmId].spec.deviceId == device
  }

  /** The records of the firings that belong to a device, in order. */
  function RecordsFor(w: World, device: string, firings: seq<Firing>, clock: real): seq<S.TimerRecord> {
    if |firings| == 0 then []
    else
      var earlier, f := RecordsFor(w, device, firings[..|firings| - 1], clock), firings[|firings| - 1];
      if OnDevice(w, f, device) then earlier + [AlarmRecord(w.rows[f.alarmId].spec, f.day, clock)] else earlier
  }

  predicate AnyFor(w: World, device: string, firings: seq<Firing>) {
    exists i :: 0 <= i < |firings| && OnDevice(w, firings[i], device)
  }

  /** From w to w' these were taken in, and those of them on ready devices rung: each ready device's queue has its own
      at its end, a device that is away has an empty one once anything fired for it, and other queues are as they
      were. */
  ghost predicate TickDelivers(w: World, w': World, env: Surroundings, taken: seq<Firing>, rung: seq<Firing>) {
    && w'.fired == w.fired + taken && w'.rings == w.rings + rung
    && (forall f :: f in rung <==> f in taken && f.alarmId in w.rows
                                   && env.devices(w.rows[f.alarmId].spec.deviceId).Ready?)
    && forall d {:trigger RingOf(w', d)} ::
         RingOf(w', d) == if env.devices(d).Ready? then RingOf(w, d) + RecordsFor(w, d, rung, env.clock)
                          else if AnyFor(w, d, taken) then [] else RingOf(w, d)
  }

  lemma AnyForMore(w: World, device: string, firings: seq<Firing>, f: Firing)
    ensures AnyFor(w, device, firings + [f]) <==> AnyFor(w, device, firings) || OnDevice(w, f, device)
  {
    var more := firings + [f];
    if AnyFor(w, device, firings) {
      var i :| 0 <= i < |firings| && OnDevice(w, firings[i], device);
      assert more[i] == firings[i];
    }
    assert more[|firings|] == f;
  }

  lemma RecordsForMore(w: World, device: string, firings: seq<Firing>, f: Firing, clock: real)
    ensures RecordsFor(w, device, firings + [f], clock)
         == RecordsFor(w, device, firings, clock)
            + if OnDevice(w, f, device) then [AlarmRecord(w.rows[f.alarmId].spec, f.day, clock)] else []
  {
    assert (firings + [f])[..|firings|] == firings;
  }

  /** One more firing, delivered. */
  lemma OneMoreFired(w: World, w1: World, w2: World, spec: AlarmSpec, day: int, env: Surroundings, taken: seq<Firing>,
                     rung: seq<Firing>)
    requires TickDelivers(w, w1, env, taken, rung) && spec.id in w.rows && w.rows[spec.id].spec == spec
    requires var f, device := Firing(spec.id, day), env.devices(spec.deviceId);
             && w2.fired == w1.fired + [f] && w2.rings == (if device.Ready? then w1.rings + [f] else w1.rings)
             && Delivered(w1, w2, spec, day, device, env.clock)
    ensures var f := Firing(spec.id, day);
            TickDelivers(w, w2, env, taken + [f], if env.devices(spec.deviceId).Ready? then rung + [f] else rung)
  {
    var f, ready := Firing(spec.id, day), env.devices(spec.deviceId).Ready?;
    var rung' := if ready then rung + [f] else rung;
    forall d {:trigger RingOf(w2, d)}
      ensures RingOf(w2, d) == if env.devices(d).Ready? then RingOf(w, d) + RecordsFor(w, d, rung', env.clock)
                               else if AnyFor(w, d, taken + [f]) then [] else RingOf(w, d)
    {
      RecordsForMore(w, d, rung, f, env.clock);
      AnyForMore(w, d, taken, f);
      assert OnDevice(w, f, d) <==> d == spec.deviceId;
      assert RingOf(w1, d) == if env.devices(d).Ready? then RingOf(w, d) + RecordsFor(w, d, rung, env.clock)
                              else if AnyFor(w, d, taken) then [] else RingOf(w, d);
      if d != spec.deviceId {
        assert SessionOf(w2, d) == SessionOf(w1, d);
      }
    }
  }

  lemma NoneMore(w: World, w1: World, w2: World, env: Surroundings, taken: seq<Firing>, rung: seq<Firing>)
    requires TickDelivers(w, w1, env, taken, rung)
    requires w2.fired == w1.fired && w2.rings == w1.rings && SameQueues(w1, w2)
    ensures TickDelivers(w, w2, env, taken, rung)
  {
    forall d {:trigger RingOf(w2, d)}
      ensures RingOf(w2, d) == if env.devices(d).Ready? then RingOf(w, d) + RecordsFor(w, d, rung, env.clock)
                               else if AnyFor(w, d, taken) then [] else RingOf(w, d)
    {
      assert RingOf(w2, d) == RingOf(w1, d);
    }
  }

  /** Every firing of a tick that rings is in its device's queue when the tick is over, behind what rang there
      before. */
  lemma {:induction false} TickSounds(w: World, loaded: seq<Row>, env: Surroundings, n: nat)
    returns (taken: seq<Firing>, rung: seq<Firing>)
    requires Inv(w) && IsLoad(w, loaded) && n <= |loaded|
    ensures TickDelivers(w, Pass(w, loaded[..n], env), env, taken, rung)
  {
    if n == 0 {
      assert loaded[..0] == [];
      taken, rung := [], [];
    } else {
      taken, rung := TickSounds(w, loaded, env, n - 1);
      PassStep(w, loaded, env, n - 1);
      var w1, row := Pass(w, loaded[..n - 1], env), loaded[n - 1];
      var w2 := ReconcileAt(w1, row, env);
      assert IsEnabledRow(w, row);
      PassDelivers(w1, row, env);
      if Fires(w1, row, env.now) {
        var f := DueFiring(row);
        OneMoreFired(w, w1, w2, row.spec, f.day, env, taken, rung);
        taken, rung := taken + [f], if env.devices(row.spec.deviceId).Ready? then rung + [f] else rung;
      } else {
        NoneMore(w, w1, w2, env, taken, rung);
      }
    }
  }

  // ---- Runs

  /** The occurrence is in the queue of its device. */
  ghost predicate Sounds(w: World, f: Firing) {
    f.alarmId in w.rows
    && S.Has(RingOf(w, w.rows[f.alarmId].spec.deviceId), S.AlarmTimer(f.alarmId, f.day))
  }

  lemma HasMore(s: seq<S.TimerRecord>, t: seq<S.TimerRecord>, id: S.TimerId)
    requires S.Has(s, id) || S.Has(t, id)
    ensures S.Has(s + t, id)
  {
    if S.Has(s, id) {
      var i :| 0 <= i < |s| && s[i].timerId == id;
      assert (s + t)[i].timerId == id;
    } else {
      var i :| 0 <= i < |t| && t[i].timerId == id;
      assert (s + t)[|s| + i].timerId == id;
    }
  }

  lemma {:induction false} RecordOf(w: World, device: string, firings: seq<Firing>, clock: real, f: Firing)
    requires RowsOk(w) && f in firings && OnDevice(w, f, device)
    ensures S.Has(RecordsFor(w, device, firings, clock), S.AlarmTimer(f.alarmId, f.day))
  {
    var earlier, last := firings[..|firings| - 1], firings[|firings| - 1];
    var r := RecordsFor(w, device, earlier, clock);
    assert firings == earlier + [last];
    RecordsForMore(w, device, earlier, last, clock);
    if f == last {
      var one := [AlarmRecord(w.rows[f.alarmId].spec, f.day, clock)];
      assert SoundRow(f.alarmId, w.rows[f.alarmId]);
      assert one[0].timerId == S.AlarmTimer(f.alarmId, f.day);
      HasMore(r, one, S.AlarmTimer(f.alarmId, f.day));
    } else {
      RecordOf(w, device, earlier, clock, f);
      HasMore(r, if OnDevice(w, last, device) then [AlarmRecord(w.rows[last.alarmId].spec, last.day, clock)] else [],
              S.AlarmTimer(f.alarmId, f.day));
    }
  }

  lemma SameDevice(w: World, loaded: seq<Row>, env: Surroundings, id: string)
    requires Inv(w) && IsLoad(w, loaded) && id in w.rows
    ensures var w' := Pass(w, loaded, env); id in w'.rows && w'.rows[id].spec.deviceId == w.rows[id].spec.deviceId
  {
    assert loaded[..|loaded|] == loaded;
    PassSameDevice(w, loaded, env, |loaded|, id);
  }

  lemma {:induction false} PassSameDevice(w: World, loaded: seq<Row>, env: Surroundings, n: nat, id: string)
    requires Inv(w) && IsLoad(w, loaded) && n <= |loaded| && id in w.rows
    ensures var w' := Pass(w, loaded[..n], env);
            id in w'.rows && w'.rows[id].spec.deviceId == w.rows[id].spec.deviceId
  {
    if n == 0 {
      assert loaded[..0] == [];
    } else {
      PassSameDevice(w, loaded, env, n - 1, id);
      PassStep(w, loaded, env, n - 1);
      OnePassSameDevice(Pass(w, loaded[..n - 1], env), loaded[n - 1], env, id);
    }
  }

  lemma OnePassSameDevice(w: World, row: Row, env: Surroundings, id: string)
    requires SessionsOk(w) && IsEnabledRow(w, row) && id in w.rows
    ensures var w' := ReconcileAt(w, row, env);
            id in w'.rows && w'.rows[id].spec.deviceId == w.rows[id].spec.deviceId
  {
    if row.spec.id == id {
      RowKeepsDevice(w, row, env);
    } else {
      ReconcileFrame(w, row, env.now, env.clock, env.faults(row.spec.id), env.devices(row.spec.deviceId));
    }
  }

  lemma RowKeepsDevice(w: World, row: Row, env: Surroundings)
    requires SessionsOk(w) && IsEnabledRow(w, row)
    ensures var w', id := ReconcileAt(w, row, env), row.spec.id;
            id in w'.rows && w'.rows[id].spec.deviceId == row.spec.deviceId
  {
    if row.next.Some? && env.now >= row.next.value {
      var key, late := OccurrenceKey(row.spec, row.next.value), WithinGrace(row.next.value, env.now);
      FireFrame(w, row, key, env.devices(row.spec.deviceId), env.clock);
      var w1 := if row.last != Some(key) && late
                then FireAlarm(w, row.spec, key, env.devices(row.spec.deviceId), env.clock) else w;
      AdvanceKeepsDevice(w1, row, if late then row.next.value else env.now, key, env.faults(row.spec.id));
    }
  }

  lemma AdvanceKeepsDevice(w: World, row: Row, floor: int, occurrence: int, faults: Faults)
    requires IsEnabledRow(w, row)
    ensures var w', id := Advance(w, row, floor, occurrence, faults), row.spec.id;
            id in w'.rows && w'.rows[id].spec.deviceId == row.spec.deviceId
  {
  }

  /** What a tick newly rings, it leaves in the device's queue. */
  lemma NewlyRungSounds(w: World, loaded: seq<Row>, env: Surroundings, f: Firing)
    requires Inv(w) && IsLoad(w, loaded) && f in Pass(w, loaded, env).rings && f !in w.rings
    ensures Sounds(Pass(w, loaded, env), f)
  {
    var w' := Pass(w, loaded, env);
    assert loaded[..|loaded|] == loaded;
    var taken, rung := TickSounds(w, loaded, env, |loaded|);
    assert f in rung;
    var d := w.rows[f.alarmId].spec.deviceId;
    RecordOf(w, d, rung, env.clock, f);
    SameDevice(w, loaded, env, f.alarmId);
    assert RingOf(w', d) == RingOf(w, d) + RecordsFor(w, d, rung, env.clock);
    HasMore(RingOf(w, d), RecordsFor(w, d, rung, env.clock), S.AlarmTimer(f.alarmId, f.day));
  }

  lemma StepSounds(w: World, op: Op, f: Firing)
    requires Inv(w) && Legal(w, op) && f in Step(w, op).rings && f !in w.rings
    ensures op.Tick? && Sounds(Step(w, op), f)
  {
    if op.Tick? {
      NewlyRungSounds(w, op.loaded, op.env, f);
    }
  }

  /** Step i of the run is the tick that put the occurrence in its device's queue, unrung before. */
  ghost predicate SoundedBy(w: World, ops: seq<Op>, i: nat, f: Firing) {
    i < |ops| && ops[i].Tick? && f !in Run(w, ops[..i]).rings && Sounds(Run(w, ops[..i + 1]), f)
  }

  lemma SoundedEarlier(w: World, ops: seq<Op>, i: nat, f: Firing)
    requires |ops| > 0 && SoundedBy(w, ops[..|ops| - 1], i, f)
    ensures SoundedBy(w, ops, i, f)
  {
    var earlier := ops[..|ops| - 1];
    assert earlier[..i] == ops[..i] && earlier[..i + 1] == ops[..i + 1] && earlier[i] == ops[i];
  }

  lemma SoundedLast(w: World, ops: seq<Op>, f: Firing)
    requires |ops| > 0 && var w1 := Run(w, ops[..|ops| - 1]);
             Inv(w1) && Legal(w1, ops[|ops| - 1]) && f !in w1.rings && f in Step(w1, ops[|ops| - 1]).rings
    ensures SoundedBy(w, ops, |ops| - 1, f)
  {
    var n := |ops| - 1;
    StepSounds(Run(w, ops[..n]), ops[n], f);
    assert ops[..n + 1] == ops;
    assert Run(w, ops[..n + 1]) == Step(Run(w, ops[..n]), ops[n]);
  }

  /** Over every legal run, whatever has rung was put in its device's queue by a tick of the run. */
  lemma {:induction false} RungWasSounded(w: World, ops: seq<Op>, f: Firing) returns (i: nat)
    requires Inv(w) && LegalRun(w, ops) && f in Run(w, ops).rings && f !in w.rings
    ensures SoundedBy(w, ops, i, f)
  {
    var earlier := ops[..|ops| - 1];
    LegalPrefix(w, ops);
    AtMostOneRing(w, earlier);
    if f in Run(w, earlier).rings {
      i := RungWasSounded(w, earlier, f);
      SoundedEarlier(w, ops, i, f);
    } else {
      i := |ops| - 1;
      SoundedLast(w, ops, f);
    }
  }
}

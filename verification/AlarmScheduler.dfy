/** The alarm scheduler's passes over the stored rows (controller/em_alarm_scheduler.py), with the ring
    path behind it (fire_alarm, controller/em_api.py) and the row updates (controller/em_db.py). */
module AlarmScheduler {
  import opened Options
  import opened Alarms
  import S = TimerSession

  /** An alarm row: the spec, and the scheduler's own bookkeeping. */
  datatype Row = Row(spec: AlarmSpec, next: Option<int>, last: Option<int>)

  /** One occurrence of one alarm. */
  datatype Firing = Firing(alarmId: string, day: int)

  /** The alarm table, the ring sessions in memory, every firing a session has taken in, every one of them that was
      given to a device able to sound it, and every id ever used. */
  datatype World = World(rows: map<string, Row>, sessions: map<string, S.Session>, fired: seq<Firing>,
                         rings: seq<Firing>, used: set<string>)

  /** Where a ring is delivered. An offline or muted device drops what its session holds. */
  datatype Device = Offline | Muted | Ready

  /** Which database writes of one alarm's pass fail. */
  datatype Faults = Faults(disable: bool, persist: bool)

  // ---- Firing

  function AlarmEvent(spec: AlarmSpec, day: int): S.Event {
    S.Event(S.Finished, S.AlarmTimer(spec.id, day),
            Some(if spec.alarmLabel.Some? && spec.alarmLabel.value != "" then spec.alarmLabel.value else "Alarm"),
            0, 0, false)
  }

  function SessionOf(w: World, device: string): S.Session {
    if device in w.sessions then w.sessions[device] else S.IDLE
  }

  /** fire_alarm: a synthetic finished timer, ignored when the session has seen its payload. An offline or muted
      device discards it: the session has taken it in, and nothing rings. */
  function FireAlarm(w: World, spec: AlarmSpec, day: int, device: Device, clock: real): World {
    var (s, t) := S.ApplyEvent(SessionOf(w, spec.deviceId), AlarmEvent(spec, day), Some(clock));
    if !t.accepted || t.duplicate then w.(sessions := w.sessions[spec.deviceId := s])
    else
      var fired := if t.alarmChanged then w.fired + [Firing(spec.id, day)] else w.fired;
      if !device.Ready? then w.(sessions := w.sessions[spec.deviceId := S.DropAll(s)], fired := fired)
      else
        w.(sessions := w.sessions[spec.deviceId := s], fired := fired,
           rings := if t.alarmChanged then w.rings + [Firing(spec.id, day)] else w.rings)
  }

  // ---- Row updates

  /** set_alarm_schedule: a None occurrence leaves the stored one (COALESCE). */
  function Persist(w: World, id: string, next: Option<int>, last: Option<int>): World {
    if id in w.rows then
      w.(rows := w.rows[id := w.rows[id].(next := next, last := if last.Some? then last else w.rows[id].last)])
    else w
  }

  function Disable(w: World, id: string): World {
    if id in w.rows then w.(rows := w.rows[id := w.rows[id].(spec := w.rows[id].spec.(enabled := false))]) else w
  }

  // ---- One pass

  /** _reconcile_alarm on a loaded row. A failing write raises and ends this alarm's pass. */
  function Reconcile(w: World, row: Row, now: int, clock: real, faults: Faults, device: Device): World {
    var id := row.spec.id;
    if row.next.None? then
      if faults.persist then w else Persist(w, id, NextFire(row.spec, now), row.last)
    else if now < row.next.value then w
    else
      var scheduled := row.next.value;
      var occurrence := OccurrenceKey(row.spec, scheduled);
      var late := WithinGrace(scheduled, now);
      var w1 := if row.last != Some(occurrence) && late then FireAlarm(w, row.spec, occurrence, device, clock) else w;
      Advance(w1, row, if late then scheduled else now, occurrence, faults)
  }

  function Advance(w: World, row: Row, floor: int, occurrence: int, faults: Faults): World {
    var id := row.spec.id;
    var next := NextFire(row.spec, floor);
    if next.None? then
      if faults.disable then w
      else if faults.persist then Disable(w, id)
      else Persist(Disable(w, id), id, None, Some(occurrence))
    else if faults.persist then w
    else Persist(w, id, next, Some(occurrence))
  }

  /** What is outside the scheduler's control during one pass. */
  datatype Surroundings = Surroundings(now: int, clock: real, faults: string -> Faults, devices: string -> Device)

  function Pass(w: World, loaded: seq<Row>, env: Surroundings): World
    decreases |loaded|
  {
    if |loaded| == 0 then w
    else
      var row := loaded[|loaded| - 1];
      Reconcile(Pass(w, loaded[..|loaded| - 1], env), row, env.now, env.clock, env.faults(row.spec.id),
                env.devices(row.spec.deviceId))
  }

  /** A load of the table: every enabled row once, in some order. */
  ghost predicate IsLoad(w: World, loaded: seq<Row>) {
    && (forall i :: 0 <= i < |loaded| ==> IsEnabledRow(w, loaded[i]))
    && (forall i, j :: 0 <= i < j < |loaded| ==> loaded[i].spec.id != loaded[j].spec.id)
    && (forall id :: id in w.rows && w.rows[id].spec.enabled ==> w.rows[id] in loaded)
  }

  ghost predicate IsEnabledRow(w: World, row: Row) {
    row.spec.id in w.rows && w.rows[row.spec.id] == row && row.spec.enabled
  }

  // ---- The object

  class Scheduler {
    var rows: map<string, Row>
    var sessions: map<string, S.Session>
    var fired: seq<Firing>
    var rings: seq<Firing>
    const used: set<string>

    constructor (rows: map<string, Row>)
      ensures State() == World(rows, map[], [], [], rows.Keys)
    {
      this.rows, this.sessions, this.fired, this.rings, this.used := rows, map[], [], [], rows.Keys;
    }

    function State(): World
      reads this
    {
      World(rows, sessions, fired, rings, used)
    }

    /** One full pass over a load of the table; one bad alarm does not stop the rest. */
    method ReconcileOnce(loaded: seq<Row>, env: Surroundings)
      modifies this
      ensures State() == Pass(old(State()), loaded, env)
    {
      for i := 0 to |loaded|
        invariant State() == Pass(old(State()), loaded[..i], env)
      {
        var row := loaded[i];
        assert loaded[..i + 1][..i] == loaded[..i];
        ReconcileAlarm(row, env.now, env.clock, env.faults(row.spec.id), env.devices(row.spec.deviceId));
      }
      assert loaded[..|loaded|] == loaded;
    }

    method ReconcileAlarm(row: Row, now: int, clock: real, faults: Faults, device: Device)
      modifies this
      ensures State() == Reconcile(old(State()), row, now, clock, faults, device)
    {
      var id := row.spec.id;
      if row.next.None? {
        var next := FindNextFire(row.spec, now);
        if !faults.persist {
          SetAlarmSchedule(id, next, row.last);
        }
        return;
      }
      var scheduled := row.next.value;
      if now < scheduled {
        return;
      }
      var occurrence := OccurrenceKey(row.spec, scheduled);
      var late := WithinGrace(scheduled, now);
      if row.last != Some(occurrence) && late {
        Fire(row.spec, occurrence, device, clock);
      }
      var next := FindNextFire(row.spec, if late then scheduled else now);
      if next.None? {
        if faults.disable {
          return;
        }
        SetDisabled(id);
        if faults.persist {
          return;
        }
        SetAlarmSchedule(id, None, Some(occurrence));
      } else if !faults.persist {
        SetAlarmSchedule(id, next, Some(occurrence));
      }
    }

    method Fire(spec: AlarmSpec, day: int, device: Device, clock: real)
      modifies this`sessions, this`fired, this`rings
      ensures State() == FireAlarm(old(State()), spec, day, device, clock)
    {
      var (s, t) := S.ApplyEvent(SessionOf(State(), spec.deviceId), AlarmEvent(spec, day), Some(clock));
      sessions := sessions[spec.deviceId := s];
      if !t.accepted || t.duplicate {
        return;
      }
      if t.alarmChanged {
        fired := fired + [Firing(spec.id, day)];
      }
      if !device.Ready? {
        sessions := sessions[spec.deviceId := S.DropAll(s)];
        return;
      }
      if t.alarmChanged {
        rings := rings + [Firing(spec.id, day)];
      }
    }

    method SetAlarmSchedule(id: string, next: Option<int>, last: Option<int>)
      modifies this`rows
      ensures State() == Persist(old(State()), id, next, last)
    {
      if id in rows {
        var row := rows[id];
        rows := rows[id := Row(row.spec, next, if last.Some? then last else row.last)];
      }
    }

    method SetDisabled(id: string)
      modifies this`rows
      ensures State() == Disable(old(State()), id)
    {
      if id in rows {
        rows := rows[id := rows[id].(spec := rows[id].spec.(enabled := false))];
      }
    }
  }
}

/** Who owns a device's speaker (controller/em_player.py): media commands against voice turns. */
module MediaPlayer {
  import opened Options

  datatype State = Idle | Playing | Paused

  datatype Command = Play(url: string) | Pause | Resume | Stop

  /** A media session. `told` is the state Home Assistant was last given. */
  datatype Media = Media(state: State, url: Option<string>, owned: bool, pending: Option<Command>,
                         resumeAfter: bool, ducked: bool, told: State)

  const NEW := Media(Idle, None, false, None, false, false, Idle)

  /** What Home Assistant should believe: a pause that is the turn's own is not shown. */
  function Reported(m: Media): State {
    if m.owned && m.resumeAfter && m.pending.None? then Playing else m.state
  }

  function Push(m: Media): Media {
    m.(told := Reported(m))
  }

  // ---- The session's own controls

  /** The feed is started; it gives Home Assistant the state only once its source is open. */
  function StartFeed(m: Media): Media {
    m.(state := Playing)
  }

  function StopNow(m: Media): Media {
    var m1 := m.(state := Idle, url := None, resumeAfter := false);
    if m.state == Idle then m1 else Push(m1)
  }

  function PlayNow(m: Media, url: string): Media {
    StartFeed(StopNow(m).(url := Some(url)))
  }

  function PauseNow(m: Media): Media {
    if m.state != Playing then m else Push(m.(state := Paused))
  }

  function ResumeNow(m: Media): Media {
    if m.state != Paused || m.url.None? then m else StartFeed(m)
  }

  function Carry(m: Media, c: Command): Media {
    match c
    case Play(url) => PlayNow(m, url)
    case Pause => PauseNow(m)
    case Resume => ResumeNow(m)
    case Stop => StopNow(m)
  }

  /** The state a deferred command announces. */
  function Intent(c: Command): State {
    match c
    case Play(_) => Playing
    case Pause => Paused
    case Resume => Playing
    case Stop => Idle
  }

  // ---- Commands, turns and the feed

  /** A user's command: carried out, or recorded while a turn owns the speaker. */
  function Issue(m: Media, c: Command): Media {
    if m.owned then m.(pending := Some(c), told := Intent(c)) else Carry(m, c)
  }

  /** A turn takes the speaker, ducking a device that mixes and pausing one that does not. */
  function Interrupt(m: Media, mixes: bool): Media {
    var m1 := m.(owned := true, pending := None);
    if mixes then m1.(ducked := true)
    else if m1.state == Playing then PauseNow(m1.(resumeAfter := true))
    else m1
  }

  function Release(m: Media): Media {
    var m1 := m.(owned := false, pending := None, resumeAfter := false, ducked := false);
    if m.pending.Some? then
      match m.pending.value
      case Play(url) => PlayNow(m1, url)
      case Resume => ResumeNow(m1)
      case Stop => StopNow(m1)
      case Pause => if m.ducked then PauseNow(m1) else m1
    else if m.resumeAfter && m1.state == Paused then ResumeNow(m1)
    else m1
  }

  /** A feed that was started is under way. */
  function FeedStarted(m: Media): Media {
    if m.state == Playing then Push(m) else m
  }

  /** The feed ends by itself: at the end of the media, or with an error, which keeps the URL. */
  function FeedEnds(m: Media, failed: bool): Media {
    if m.state != Playing then m else Push(m.(state := Idle, url := if failed then m.url else None))
  }

  // ---- The object

  class MediaSession {
    var state: State
    var url: Option<string>
    var ownedByTurn: bool
    var pending: Option<Command>
    var resumeAfter: bool
    var ducked: bool
    var told: State

    function View(): Media
      reads this
    {
      Media(state, url, ownedByTurn, pending, resumeAfter, ducked, told)
    }

    constructor ()
      ensures View() == NEW
    {
      state, url, ownedByTurn, pending, resumeAfter, ducked, told := Idle, None, false, None, false, false, Idle;
    }

    method PushState()
      modifies this`told
      ensures View() == Push(old(View()))
    {
      told := if ownedByTurn && resumeAfter && pending.None? then Playing else state;
    }

    method PlayUrl(u: string)
      modifies this
      ensures View() == PlayNow(old(View()), u)
    {
      StopMedia();
      url := Some(u);
      state := Playing;
    }

    method PauseMedia()
      modifies this
      ensures View() == PauseNow(old(View()))
    {
      if state != Playing {
        return;
      }
      state := Paused;
      PushState();
    }

    method ResumeMedia()
      modifies this
      ensures View() == ResumeNow(old(View()))
    {
      if state != Paused || url.None? {
        return;
      }
      state := Playing;
    }

    method StopMedia()
      modifies this
      ensures View() == StopNow(old(View()))
    {
      var wasActive := state != Idle;
      state, url, resumeAfter := Idle, None, false;
      if wasActive {
        PushState();
      }
    }

    /** The user's play, pause, resume or stop. */
    method UserCommand(c: Command)
      modifies this
      ensures View() == Issue(old(View()), c)
    {
      if ownedByTurn {
        pending := Some(c);
        told := Intent(c);
        return;
      }
      match c {
        case Play(u) => PlayUrl(u);
        case Pause => PauseMedia();
        case Resume => ResumeMedia();
        case Stop => StopMedia();
      }
    }

    method TurnStarts(mixes: bool)
      modifies this
      ensures View() == Interrupt(old(View()), mixes)
    {
      ownedByTurn, pending := true, None;
      if mixes {
        ducked := true;
        return;
      }
      if state == Playing {
        resumeAfter := true;
        PauseMedia();
      }
    }

    method TurnEnds()
      modifies this
      ensures View() == Release(old(View()))
    {
      var deferred, putBack, wasDucked := pending, resumeAfter, ducked;
      ownedByTurn, pending, resumeAfter, ducked := false, None, false, false;
      if deferred.Some? {
        match deferred.value {
          case Play(u) => PlayUrl(u);
          case Resume => ResumeMedia();
          case Stop => StopMedia();
          case Pause =>
            if wasDucked {
              PauseMedia();
            }
        }
        return;
      }
      if putBack && state == Paused {
        ResumeMedia();
      }
    }

    /** The feed task reaching its source. */
    method Started()
      modifies this
      ensures View() == FeedStarted(old(View()))
    {
      if state == Playing {
        PushState();
      }
    }

    /** The feed task ending by itself. */
    method Ended(failed: bool)
      modifies this
      ensures View() == FeedEnds(old(View()), failed)
    {
      if state == Playing {
        state, url := Idle, if failed then url else None;
        PushState();
      }
    }
  }

  // ---- One turn

  /** What can happen while a turn owns the speaker. */
  datatype Event = User(c: Command) | Ends(failed: bool)

  function During(m: Media, events: seq<Event>): Media {
    if |events| == 0 then m
    else
      var before := During(m, events[..|events| - 1]);
      match events[|events| - 1]
      case User(c) => Issue(before, c)
      case Ends(failed) => FeedEnds(before, failed)
  }

  /** A whole turn: taken, lived through, released. */
  function Turn(m: Media, mixes: bool, events: seq<Event>): Media {
    Release(During(Interrupt(m, mixes), events))
  }

  /** Nobody owns the speaker, Home Assistant knows the state, and what plays or waits has a URL. */
  ghost predicate AtRest(m: Media) {
    && !m.owned && m.pending.None? && !m.resumeAfter && !m.ducked
    && m.told == m.state && (m.state != Idle ==> m.url.Some?)
  }

  /** The session had no turn come: only its feed may have ended, and only where ducking left it running. */
  function Undisturbed(m: Media, mixes: bool, events: seq<Event>): Media {
    if |events| == 0 || !mixes then m
    else
      var before := Undisturbed(m, mixes, events[..|events| - 1]);
      match events[|events| - 1]
      case User(_) => before
      case Ends(failed) => FeedEnds(before, failed)
  }

  function LastCommand(events: seq<Event>): Option<Command> {
    if |events| == 0 then None
    else match events[|events| - 1]
      case User(c) => Some(c)
      case Ends(_) => LastCommand(events[..|events| - 1])
  }

  predicate SameMusic(a: Media, b: Media) {
    a.state == b.state && a.url == b.url
  }

  /** While the turn lasts no command touches the session: it holds what it held, paused where the device
      cannot mix, with the last command waiting. */
  lemma {:induction false} CommandsWait(m: Media, mixes: bool, events: seq<Event>)
    requires AtRest(m)
    ensures var w := During(Interrupt(m, mixes), events);
            var u := Undisturbed(m, mixes, events);
            && w.owned && w.pending == LastCommand(events) && w.ducked == mixes
            && w.url == u.url && w.resumeAfter == (!mixes && m.state == Playing)
            && w.state == (if !mixes && m.state == Playing then Paused else u.state)
            && (u.state != Idle ==> u.url.Some?)
  {
    if |events| > 0 {
      CommandsWait(m, mixes, events[..|events| - 1]);
    }
  }

  /** Releasing a session that waited settles its last command, or puts back what the turn paused. */
  lemma ReleaseSettles(w: Media, u: Media, mixes: bool)
    requires w.ducked == mixes && w.url == u.url && (u.state != Idle ==> u.url.Some?)
    requires w.resumeAfter == (!mixes && u.state == Playing)
    requires w.state == if !mixes && u.state == Playing then Paused else u.state
    ensures var after := Release(w);
            && SameMusic(after, if w.pending.Some? then Carry(u, w.pending.value) else u)
            && !after.owned && after.pending.None? && !after.resumeAfter && !after.ducked
            && (after.state != Idle ==> after.url.Some?)
  {
  }

  /** After the turn the session is at rest where the last command alone, given to a session no turn disturbed,
      would have left it; with no command, where it was. */
  lemma TurnIsLastCommand(m: Media, mixes: bool, events: seq<Event>)
    requires AtRest(m)
    ensures var after := Turn(m, mixes, events);
            var u := Undisturbed(m, mixes, events);
            && SameMusic(after, if LastCommand(events).Some? then Carry(u, LastCommand(events).value) else u)
            && !after.owned && after.pending.None? && !after.resumeAfter && !after.ducked
            && (after.state != Idle ==> after.url.Some?)
  {
    CommandsWait(m, mixes, events);
    ReleaseSettles(During(Interrupt(m, mixes), events), Undisturbed(m, mixes, events), mixes);
  }

  /** The waiting command is the last one given. */
  lemma {:induction false} LastCommandIsLast(events: seq<Event>)
    ensures LastCommand(events).None? <==> forall i :: 0 <= i < |events| ==> events[i].Ends?
    ensures forall i :: 0 <= i < |events| && events[i].User? && (forall j :: i < j < |events| ==> events[j].Ends?) ==>
                        LastCommand(events) == Some(events[i].c)
  {
    if |events| > 0 {
      LastCommandIsLast(events[..|events| - 1]);
      forall i | 0 <= i < |events| && events[i].User? && (forall j :: i < j < |events| ==> events[j].Ends?)
        ensures LastCommand(events) == Some(events[i].c)
      {
        if i < |events| - 1 {
          assert events[|events| - 1].Ends?;
          assert events[..|events| - 1][i] == events[i];
        }
      }
    }
  }

  /** A session no turn disturbed is as it was, unless the device mixes and its feed came to an end while playing. */
  lemma {:induction false} UndisturbedIs(m: Media, mixes: bool, events: seq<Event>)
    ensures var ended := mixes && m.state == Playing && exists i :: 0 <= i < |events| && events[i].Ends?;
            var u := Undisturbed(m, mixes, events);
            if ended then u.state == Idle && (u.url.None? || u.url == m.url) else u == m
  {
    if |events| > 0 {
      var earlier := events[..|events| - 1];
      UndisturbedIs(m, mixes, earlier);
      if exists i :: 0 <= i < |earlier| && earlier[i].Ends? {
        var i :| 0 <= i < |earlier| && earlier[i].Ends?;
        assert events[i].Ends?;
      }
      assert forall i :: 0 <= i < |earlier| ==> events[i] == earlier[i];
    }
  }

  /** What plays after a turn: the URL last asked for, nothing after a stop, and otherwise what was there - held by a
      pause, going on after a resume, or as it was if nothing was said. */
  lemma TurnPlays(m: Media, mixes: bool, events: seq<Event>)
    requires AtRest(m)
    ensures var after, u := Turn(m, mixes, events), Undisturbed(m, mixes, events);
            match LastCommand(events)
            case None => after.state == u.state && after.url == u.url
            case Some(Play(url)) => after.state == Playing && after.url == Some(url)
            case Some(Stop) => after.state == Idle && after.url == None
            case Some(Pause) => after.url == u.url && after.state == if u.state == Playing then Paused else u.state
            case Some(Resume) => after.url == u.url && after.state == if u.state == Paused then Playing else u.state
  {
    TurnIsLastCommand(m, mixes, events);
    CommandsWait(m, mixes, events);
  }

  /** The same of a command given outside a turn, and Home Assistant is told once a feed it started is under way. */
  lemma CommandsAct(m: Media, c: Command)
    requires AtRest(m)
    ensures var after := FeedStarted(Issue(m, c));
            && AtRest(after)
            && match c
               case Play(url) => after.state == Playing && after.url == Some(url)
               case Stop => after.state == Idle && after.url == None
               case Pause => after.url == m.url && after.state == if m.state == Playing then Paused else m.state
               case Resume => after.url == m.url && after.state == if m.state == Paused then Playing else m.state
  {
  }

  /** A device that ducks and one that pauses end a turn alike, unless the feed ends by itself under the duck. */
  lemma DuckingIsPausing(m: Media, events: seq<Event>)
    requires AtRest(m) && forall i :: 0 <= i < |events| ==> events[i].User?
    ensures SameMusic(Turn(m, true, events), Turn(m, false, events))
  {
    NoEndings(m, events);
    TurnIsLastCommand(m, true, events);
    TurnIsLastCommand(m, false, events);
  }

  lemma {:induction false} NoEndings(m: Media, events: seq<Event>)
    requires forall i :: 0 <= i < |events| ==> events[i].User?
    ensures Undisturbed(m, true, events) == m
  {
    if |events| > 0 {
      NoEndings(m, events[..|events| - 1]);
    }
  }

  /** Music that was playing is reported as playing until the first command, or until it really ends. */
  lemma {:induction false} PlayingUntilAsked(m: Media, mixes: bool, events: seq<Event>)
    requires AtRest(m) && m.state == Playing && LastCommand(events).None?
    ensures var w := During(Interrupt(m, mixes), events);
            Reported(w) == w.told == Undisturbed(m, mixes, events).state
  {
    CommandsWait(m, mixes, events);
    if |events| > 0 {
      PlayingUntilAsked(m, mixes, events[..|events| - 1]);
    }
  }

  // ---- What Home Assistant is left believing

  /** The last command and the session it found. */
  function LastFound(m: Media, mixes: bool, events: seq<Event>): Option<(Command, State)> {
    if |events| == 0 then None
    else match events[|events| - 1]
      case User(c) => Some((c, Undisturbed(m, mixes, events[..|events| - 1]).state))
      case Ends(_) => LastFound(m, mixes, events[..|events| - 1])
  }

  /** A pause or resume of an idle session is announced and then does nothing. */
  predicate EmptyPromise(found: Option<(Command, State)>) {
    found.Some? && (found.value.0 == Pause || found.value.0 == Resume) && found.value.1 == Idle
  }

  /** The announcement standing at the end of the turn. */
  lemma {:induction false} ToldDuring(m: Media, mixes: bool, events: seq<Event>)
    requires AtRest(m)
    ensures var w := During(Interrupt(m, mixes), events);
            var found := LastFound(m, mixes, events);
            var u := Undisturbed(m, mixes, events);
            && (found.Some? <==> LastCommand(events).Some?)
            && (found.Some? ==> found.value.0 == LastCommand(events).value)
            && (found.None? ==> w.told == u.state)
            && (found.Some? ==> if u.state == found.value.1 then w.told == Intent(found.value.0)
                                else u.state == Idle && w.told == Idle && found.value.1 == Playing)
            && (found.Some? && found.value.1 == Idle ==> u.state == Idle)
  {
    if |events| > 0 {
      ToldDuring(m, mixes, events[..|events| - 1]);
      CommandsWait(m, mixes, events[..|events| - 1]);
    }
  }

  /** Once a feed the turn's end started is under way, Home Assistant's state is the session's, except when the last
      command was a pause or a resume that found nothing to act on: then it is left showing paused or playing over
      silence. */
  lemma ToldTheTruth(m: Media, mixes: bool, events: seq<Event>)
    requires AtRest(m)
    ensures var after := FeedStarted(Turn(m, mixes, events));
            after.told == after.state <==> !EmptyPromise(LastFound(m, mixes, events))
  {
    CommandsWait(m, mixes, events);
    ToldDuring(m, mixes, events);
  }
}

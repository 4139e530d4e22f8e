/** The backing-track player (`CompPlayer`). The control methods, called
    from the user interface, set the exercise, track, tempo and position;
    the player thread's loop rebuilds its play list when told to and sends
    each event when it falls due. Each call here is one critical section:
    the lock, the condition variable and the thread are not modelled. The
    clocks are parameters (`wall` for time.time(), `now` and `later` for
    two readings of time.perf_counter()), whether the MIDI library opens a
    port is a parameter, and the messages the player sends are recorded,
    with the output they went to, in `sent`. */
module Player {
  import opened Builtins
  import opened Midi
  import opened Tracks
  import opened Ordering
  import opened Timeline
  import opened Ports
  import opened Rebuild
  import Exercises

  /** An event is played this early or late, to make up for the precision
      of sleeping. */
  const ALLOW_EARLY: real := 0.001
  const ALLOW_LATE: real := 0.020

  /** Python's truth value of an optional time: None and 0.0 are false. */
  predicate Truthy(t: Option<real>) {
    t.Some? && t.value != 0.0
  }

  /** The messages sent through output o, in order. */
  function Sends(o: Output, ms: seq<Message>): (r: seq<(Output, Message)>)
    ensures |r| == |ms|
    ensures forall i :: 0 <= i < |ms| ==> r[i] == (o, ms[i])
  {
    seq(|ms|, i requires 0 <= i < |ms| => (o, ms[i]))
  }

  lemma {:induction false} SendsSnoc(o: Output, ms: seq<Message>, i: int)
    requires 0 <= i < |ms|
    ensures Sends(o, ms[..i + 1]) == Sends(o, ms[..i]) + [(o, ms[i])]
  {
  }

  /** The head event is due: it is no more than ALLOW_EARLY ahead of now. */
  predicate Due(now: real, e: Event) {
    now - e.time > -ALLOW_EARLY
  }

  /** A due event is sent only when it is less than ALLOW_LATE behind now;
      a later one is dropped. */
  predicate InWindow(now: real, e: Event) {
    Due(now, e) && now - e.time < ALLOW_LATE
  }

  /** The two prepare_track calls of a rebuild and the main track lookup
      between them, in the order the player makes them. */
  method PlayList(sheet: Sheet, tempo: Option<real>, p0: real, track: Option<string>)
    returns (r: Result<seq<Event>>)
    ensures r == Rebuilt(sheet, tempo, p0, track)
  {
    if tempo.None? {
      return Err(TypeError);
    }
    var lead := PrepareTrack(sheet, tempo.value, p0, LEAD_TRACK, Exercises.LEAD_IN, 0);
    if lead.Err? {
      return Err(lead.error);
    }
    if track.None? || track.value !in MAIN_TRACKS {
      return Err(KeyError);
    }
    MainTracksShape();
    var main := PrepareTrack(sheet, tempo.value, p0, MAIN_TRACKS[track.value], sheet.length, Exercises.LEAD_IN);
    return Ok(lead.value + main.value);
  }

  /** A rebuild's result as the error it raised or the list it built. */
  function Settled(err: Option<Error>, list: seq<Event>): Result<seq<Event>> {
    if err.Some? then Err(err.value) else Ok(list)
  }

  /** What a pass of the player thread's inner loop ended with. */
  datatype Outcome =
    | Ended           // the loop test failed: quit, stopped, or restarted
    | PlayedOut       // the last event was dispatched
    | Sleeps(d: real) // the thread waits d seconds for the next event
    | Continues       // the next event is already due

  /** What the player thread's outer loop did on waking. */
  datatype Wakeup = Quit | Idle | Started

  /** What one pass of the inner loop promises, stated on values. `rebuilt`
      is what the rebuild gives, `update0`, `pending0` and `sent0` the state
      before the pass, `list` the play list the dispatch starts from, and
      `update`, `pending` and `sent` the state after it. */
  ghost predicate Passed(now: real, later: real, rebuilt: Result<seq<Event>>, out: Option<Output>, init: seq<Message>,
                         update0: bool, pending0: seq<Event>, sent0: seq<(Output, Message)>,
                         r: Result<Outcome>, list: seq<Event>, update: bool, pending: seq<Event>,
                         sent: seq<(Output, Message)>)
  {
    // the errors: an empty list, a send without a port, the rebuild's own
    && (r.Err? && !update0 ==> r.error == IndexError && pending0 == [])
    && (r.Err? && update0 && out.None? && init != [] ==> r.error == AttributeError)
    && (r.Err? && update0 && (out.Some? || init == []) ==>
          (rebuilt.Err? && r.error == rebuilt.error) || (rebuilt == Ok([]) && r.error == IndexError))
    && (r.Err? ==> sent == sent0 + (if update0 && out.Some? then Sends(out.value, init) else []))
    // the play list: the rebuilt one when a rebuild was asked for, else the old one
    && (r.Ok? ==> r.value != Ended && list != [] && !update)
    && (r.Ok? && update0 ==> rebuilt == Ok(list))
    && (r.Ok? && !update0 ==> list == pending0)
    // the dispatch of its head
    && (r.Ok? ==> pending == (if Due(now, list[0]) then list[1..] else list))
    && (r.Ok? && out.Some? ==>
          sent == sent0 + (if update0 then Sends(out.value, init) else [])
                  + (if InWindow(now, list[0]) then [(out.value, list[0].msg)] else []))
    && (r.Ok? && out.None? ==> sent == sent0)
    && (r.Ok? ==> (r.value == PlayedOut <==> Due(now, list[0]) && |list| == 1))
    && (r.Ok? ==> (r.value == Continues <==> Due(now, list[0]) && |list| > 1 && list[1].time <= later))
    && (r.Ok? && r.value.Sleeps? ==>
          r.value.d > 0.0
          && r.value.d == (if Due(now, list[0]) then list[1].time - later else list[0].time - now))
  }

  class CompPlayer {
    /** MIDI_INIT, the messages sent before each rebuild. */
    const midiInit: seq<Message>
    var exercise: Option<Sheet>
    var startTime: Option<real>   // wall clock start time
    var pStartTime: Option<real>  // precise start time
    var quit: bool
    var port: Option<Output>
    var portName: Option<string>
    var availablePorts: seq<string>
    var threadAlive: bool
    /** The thread is in the outer loop's wait for an exercise. */
    var idle: bool
    var trackName: Option<string>
    var tempo: Option<real>
    var update: bool
    /** The player thread's play list. */
    var pending: seq<Event>
    /** Every message sent, with the output it went to. */
    var sent: seq<(Output, Message)>

    /** A wall clock start time always comes with a precise one. */
    predicate Valid()
      reads this
    {
      startTime.Some? ==> pStartTime.Some?
    }

    constructor (midiInit: seq<Message>, names: seq<string>, choice: Choice)
      ensures this.midiInit == midiInit
      ensures exercise.None? && startTime.None? && pStartTime.None? && !quit
      ensures port == Some(choice.output) && portName == Some(choice.name)
      ensures availablePorts == AvailablePorts(names)
      ensures trackName.None? && tempo.None? && !update
      ensures pending == [] && sent == [] && threadAlive && !idle
      ensures Valid()
    {
      this.midiInit := midiInit;
      exercise := None;
      startTime := None;
      pStartTime := None;
      quit := false;
      port := Some(choice.output);
      portName := Some(choice.name);
      availablePorts := AvailablePorts(names);
      threadAlive := true;
      idle := false;
      trackName := None;
      tempo := None;
      update := false;
      pending := [];
      sent := [];
    }

    /** `CompPlayer()`: MIDINotAvailable without the MIDI library or when
        listing the ports fails (`listed` is None); otherwise the port
        InitialPort chooses, or MIDINotAvailable when neither the best
        port nor the virtual port opens. */
    static method Open(midiInit: seq<Message>, hasLibrary: bool, listed: Option<seq<string>>,
                       hwOpens: bool, virtOpens: bool)
      returns (r: Result<CompPlayer>)
      ensures !hasLibrary || listed.None? ==> r == Err(MidiNotAvailable)
      ensures hasLibrary && listed.Some? ==>
                (r.Err? <==> InitialPort(listed.value, hwOpens, virtOpens).Err?)
      ensures r.Err? ==> r.error == MidiNotAvailable
      ensures r.Ok? ==> hasLibrary && listed.Some? && fresh(r.value) && r.value.Valid()
      ensures r.Ok? ==> var choice := InitialPort(listed.value, hwOpens, virtOpens).value;
                && r.value.port == Some(choice.output) && r.value.portName == Some(choice.name)
                && r.value.availablePorts == AvailablePorts(listed.value)
                && r.value.midiInit == midiInit && r.value.threadAlive && !r.value.idle
      ensures r.Ok? ==>
                && r.value.exercise.None? && r.value.startTime.None? && r.value.pStartTime.None?
                && !r.value.quit && r.value.trackName.None? && r.value.tempo.None? && !r.value.update
                && r.value.pending == [] && r.value.sent == []
    {
      if !hasLibrary || listed.None? {
        return Err(MidiNotAvailable);
      }
      var choice := InitialPort(listed.value, hwOpens, virtOpens);
      if choice.Err? {
        return Err(choice.error);
      }
      var player := new CompPlayer(midiInit, listed.value, choice.value);
      return Ok(player);
    }

    /** `start`: hand the player an exercise to play with the named main
        track at the given tempo. */
    method Start(exercise: Sheet, mainTrack: string, tempo: real)
      modifies this`exercise, this`startTime, this`trackName, this`tempo, this`update
      ensures this.exercise == Some(exercise) && startTime.None?
      ensures trackName == Some(mainTrack) && this.tempo == Some(tempo) && update
      ensures Valid()
    {
      this.exercise := Some(exercise);
      startTime := None;
      trackName := Some(mainTrack);
      this.tempo := Some(tempo);
      update := true;
    }

    /** What `start` returns once the player thread has set the start time. */
    method StartedAt() returns (t: real)
      requires Truthy(startTime)
      ensures Some(t) == startTime && t != 0.0
    {
      return startTime.value;
    }

    /** `stop`. */
    method Stop()
      requires Valid()
      modifies this`exercise
      ensures Valid()
      ensures exercise.None?
    {
      exercise := None;
    }

    /** `change_track`: the new track is played from the next rebuild on. */
    method ChangeTrack(name: string)
      requires Valid()
      modifies this`trackName, this`update
      ensures Valid()
      ensures trackName == Some(name) && update
    {
      trackName := Some(name);
      update := true;
    }

    /** `change_tempo`: set the tempo and, when a new wall clock start time
        is given and one is set, move both start times by the same amount,
        so the precise start time keeps its distance to the wall clock one. */
    method ChangeTempo(tempo: real, start: Option<real>)
      requires Valid()
      modifies this`tempo, this`startTime, this`pStartTime, this`update
      ensures Valid()
      ensures this.tempo == Some(tempo) && update
      ensures Truthy(start) && Truthy(old(startTime)) ==>
                startTime == start &&
                pStartTime.value - startTime.value == old(pStartTime.value - startTime.value)
      ensures !(Truthy(start) && Truthy(old(startTime))) ==>
                startTime == old(startTime) && pStartTime == old(pStartTime)
    {
      this.tempo := Some(tempo);
      if Truthy(start) && Truthy(startTime) {
        pStartTime := Some(pStartTime.value + (start.value - startTime.value));
        startTime := start;
      }
      update := true;
    }

    /** The player thread's outer loop on waking. At the head of the loop it
        ends when told to quit; otherwise it waits while there is no
        exercise, and once there is one reads both clocks and starts with
        an empty play list. The wait for an exercise does not look at
        `quit`: a thread that is waiting keeps waiting after it is told to
        quit, until an exercise arrives. */
    method Begin(wall: real, precise: real) returns (w: Wakeup)
      requires Valid() && threadAlive
      modifies this`startTime, this`pStartTime, this`pending, this`threadAlive, this`idle
      ensures Valid()
      ensures !old(idle) && quit ==> w == Quit && !threadAlive
      ensures old(idle) || !quit ==> threadAlive
      ensures (old(idle) || !quit) && exercise.None? ==> w == Idle && idle
      ensures w != Started ==> startTime == old(startTime) && pStartTime == old(pStartTime) && pending == old(pending)
      ensures (old(idle) || !quit) && exercise.Some? ==>
                w == Started && !idle && startTime == Some(wall) && pStartTime == Some(precise) && pending == []
    {
      if !idle && quit {
        threadAlive := false;
        return Quit;
      }
      if exercise.None? {
        idle := true;
        return Idle;
      }
      idle := false;
      startTime := Some(wall);
      pStartTime := Some(precise);
      pending := [];
      return Started;
    }

    /** The outer loop as its teardown evidently intends it: the wait for an
        exercise also gives up when told to quit, so that the thread ends
        and `__del__` need not wait out its time limit. */
    method BeginIntended(wall: real, precise: real) returns (w: Wakeup)
      requires Valid() && threadAlive
      modifies this`startTime, this`pStartTime, this`pending, this`threadAlive, this`idle
      ensures Valid()
      ensures quit <==> w == Quit
      ensures quit ==> !threadAlive
      ensures !quit ==> threadAlive
      ensures !quit && exercise.None? ==> w == Idle && idle
      ensures w != Started ==> startTime == old(startTime) && pStartTime == old(pStartTime) && pending == old(pending)
      ensures !quit && exercise.Some? ==>
                w == Started && !idle && startTime == Some(wall) && pStartTime == Some(precise) && pending == []
    {
      if quit {
        threadAlive := false;
        return Quit;
      }
      if exercise.None? {
        idle := true;
        return Idle;
      }
      idle := false;
      startTime := Some(wall);
      pStartTime := Some(precise);
      pending := [];
      return Started;
    }

    /** The loop over MIDI_INIT: each message goes to the port, and the
        first one is an AttributeError when there is none. */
    method SendInit() returns (ok: bool)
      requires Valid()
      modifies this`sent
      ensures Valid()
      ensures ok <==> port.Some? || midiInit == []
      ensures port.Some? ==> sent == old(sent) + Sends(port.value, midiInit)
      ensures port.None? ==> sent == old(sent)
    {
      var i := 0;
      while i < |midiInit|
        invariant 0 <= i <= |midiInit|
        invariant port.Some? ==> sent == old(sent) + Sends(port.value, midiInit[..i])
        invariant port.None? ==> i == 0 && sent == old(sent)
      {
        if port.None? {
          return false;
        }
        SendsSnoc(port.value, midiInit, i);
        sent := sent + [(port.value, midiInit[i])];
        i := i + 1;
      }
      assert midiInit[..i] == midiInit;
      return true;
    }

    /** The rebuild of the play list: MIDI_INIT is sent to the port (an
        AttributeError when there is none), then the play list becomes
        what Rebuilt computes, and the update flag is cleared. */
    method RebuildList(sheet: Sheet, p0: real, tempo: Option<real>, track: Option<string>) returns (err: Option<Error>)
      requires Valid()
      requires exercise == Some(sheet) && pStartTime == Some(p0) && this.tempo == tempo && trackName == track
      modifies this`sent, this`pending, this`update
      ensures Valid()
      ensures sent == old(sent) + (if port.Some? then Sends(port.value, midiInit) else [])
      ensures update == (old(update) && err.Some?)
      ensures err.Some? ==> pending == old(pending)
      ensures port.None? && midiInit != [] ==> err == Some(AttributeError)
      ensures port.Some? || midiInit == [] ==> Rebuilt(sheet, tempo, p0, track) == Settled(err, pending)
    {
      var ok := SendInit();
      if !ok {
        err := Some(AttributeError);
      } else {
        var list := PlayList(sheet, tempo, p0, track);
        if list.Ok? {
          pending := list.value;
          update := false;
          err := None;
        } else {
          err := Some(list.error);
        }
      }
    }

    /** The dispatch of the head event: a due event leaves the play list,
        and is sent when it is within the window and there is a port; the
        thread then sleeps until the next event unless it is due already. */
    method Dispatch(now: real, later: real) returns (o: Outcome)
      requires Valid() && pending != []
      modifies this`pending, this`sent
      ensures Valid()
      ensures Due(now, old(pending[0])) ==> pending == old(pending[1..])
      ensures !Due(now, old(pending[0])) ==> pending == old(pending)
      ensures InWindow(now, old(pending[0])) && port.Some? ==> sent == old(sent) + [(port.value, old(pending[0]).msg)]
      ensures !(InWindow(now, old(pending[0])) && port.Some?) ==> sent == old(sent)
      ensures o != Ended
      ensures o == PlayedOut <==> Due(now, old(pending[0])) && |old(pending)| == 1
      ensures o == Continues <==> Due(now, old(pending[0])) && |old(pending)| > 1 && pending[0].time <= later
      ensures o.Sleeps? ==> o.d > 0.0
      ensures o.Sleeps? && Due(now, old(pending[0])) ==> o.d == pending[0].time - later
      ensures o.Sleeps? && !Due(now, old(pending[0])) ==> o.d == pending[0].time - now
      ensures Sorted(old(pending)) ==> Sorted(pending)
      ensures Sorted(old(pending)) && Due(now, old(pending[0])) ==>
                forall e :: e in pending ==> EventLe(old(pending[0]), e)
    {
      var head := pending[0];
      var lag := now - head.time;
      var evTime, clock := head.time, now;
      if lag > -ALLOW_EARLY {
        if Sorted(pending) {
          TailOf(pending);
          forall e | e in pending[1..]
            ensures EventLe(head, e)
          {
            HeadFirst(pending, e);
          }
        }
        pending := pending[1..];
        if lag < ALLOW_LATE && port.Some? {
          sent := sent + [(port.value, head.msg)];
        }
        if pending == [] {
          return PlayedOut;
        }
        evTime, clock := pending[0].time, later;
      }
      if evTime > clock {
        return Sleeps(evTime - clock);
      }
      return Continues;
    }

    /** One pass of the player thread's inner loop: the loop test, then the
        rest of the pass. When the loop ends, or the list has played out,
        the start time and exercise are cleared; an exception ends the
        thread. Past the loop test the pass is the one `Passed` describes,
        where `rebuilt` names what a rebuild from the current exercise,
        tempo, precise start time and track gives. */
    method Tick(now: real, later: real, ghost rebuilt: Result<seq<Event>>)
      returns (r: Result<Outcome>, ghost list: seq<Event>)
      requires Valid() && threadAlive
      requires exercise.Some? && pStartTime.Some? ==> rebuilt == Rebuilt(exercise.value, tempo, pStartTime.value, trackName)
      modifies this`startTime, this`exercise, this`sent, this`pending, this`update, this`threadAlive
      ensures Valid()
      ensures quit || !Truthy(old(startTime)) || old(exercise).None? ==>
                r == Ok(Ended) && startTime.None? && exercise.None? && threadAlive
                && sent == old(sent) && pending == old(pending) && update == old(update)
      ensures !quit && Truthy(old(startTime)) && old(exercise).Some? ==> r != Ok(Ended)
      ensures r.Err? <==> !threadAlive
      ensures r == Ok(PlayedOut) ==> startTime.None? && exercise.None?
      ensures r.Err? || (r.Ok? && r.value != Ended && r.value != PlayedOut) ==>
                startTime == old(startTime) && exercise == old(exercise)
      ensures r != Ok(Ended) ==>
                Passed(now, later, rebuilt, port, midiInit,
                       old(update), old(pending), old(sent), r, list, update, pending, sent)
      ensures r.Ok? && r.value != Ended && Sorted(list) ==> Sorted(pending)
    {
      if quit || !Truthy(startTime) || exercise.None? {
        startTime := None;
        exercise := None;
        return Ok(Ended), [];
      }
      r, list := Pass(now, later, exercise.value, pStartTime.value, tempo, trackName, rebuilt);
      if r.Err? {
        threadAlive := false;
      } else if r.value == PlayedOut {
        startTime := None;
        exercise := None;
      }
    }

    /** The body of the inner loop once its test has passed: a rebuild when
        one was asked for, then the dispatch of the head of the play list,
        an IndexError when the list is empty. `list` is the play list the
        dispatch starts from, and `rebuilt` what a rebuild gives. */
    method Pass(now: real, later: real, sheet: Sheet, p0: real, tempo: Option<real>, track: Option<string>,
                ghost rebuilt: Result<seq<Event>>)
      returns (r: Result<Outcome>, ghost list: seq<Event>)
      requires Valid()
      requires exercise == Some(sheet) && pStartTime == Some(p0) && this.tempo == tempo && trackName == track
      requires rebuilt == Rebuilt(sheet, tempo, p0, track)
      modifies this`sent, this`pending, this`update
      ensures Valid()
      ensures Passed(now, later, rebuilt, port, midiInit,
                     old(update), old(pending), old(sent), r, list, update, pending, sent)
      ensures r.Ok? && Sorted(list) ==> Sorted(pending)
      ensures r.Ok? && Sorted(list) && Due(now, list[0]) ==> forall e :: e in pending ==> EventLe(list[0], e)
    {
      var failed := None;
      if update {
        failed := RebuildList(sheet, p0, tempo, track);
      }
      list := pending;
      if failed.Some? {
        r := Err(failed.value);
      } else if pending == [] {
        r := Err(IndexError);
      } else {
        var o := Dispatch(now, later);
        r := Ok(o);
      }
    }

    /** `change_port`: refresh the list of ports (failure to list is a
        plain False), then switch to the named port if it is not the
        current one, is known, and opens. The old port is closed first,
        an AttributeError when there is none. Success returns None, as the
        code falls off its end. */
    method ChangePort(name: string, listed: Option<seq<string>>, opens: bool) returns (r: Result<Option<bool>>)
      requires Valid()
      modifies this`availablePorts, this`port, this`portName
      ensures Valid()
      ensures listed.None? ==> r == Ok(Some(false)) && availablePorts == old(availablePorts)
      ensures listed.Some? ==> availablePorts == AvailablePorts(listed.value)
      ensures r != Ok(None) ==> port == old(port) && portName == old(portName)
      ensures r == Ok(None) ==> portName == Some(name) && old(port).Some?
      ensures listed.Some? && old(portName) == Some(name) ==> r == Ok(Some(false))
      ensures listed.Some? && old(portName) != Some(name) && name == VIRTUAL ==>
                (opens && old(port).Some? ==> r == Ok(None) && port == Some(Virtual))
                && (!opens ==> r == Ok(Some(false)))
                && (opens && old(port).None? ==> r == Err(AttributeError))
      ensures listed.Some? && old(portName) != Some(name) && name != VIRTUAL ==>
                var found := Lookup(Ranked(listed.value), name);
                && (found.None? || !opens ==> r == Ok(Some(false)))
                && (found.Some? && opens && old(port).Some? ==> r == Ok(None) && port == Some(Hardware(found.value)))
                && (found.Some? && opens && old(port).None? ==> r == Err(AttributeError))
    {
      if listed.None? {
        return Ok(Some(false));
      }
      var names := listed.value;
      availablePorts := AvailablePorts(names);
      if Some(name) == portName {
        return Ok(Some(false));
      }
      var target: Output;
      if name == VIRTUAL {
        if !opens {
          return Ok(Some(false));
        }
        target := Virtual;
      } else {
        var found := Lookup(Ranked(names), name);
        if found.None? || !opens {
          return Ok(Some(false));
        }
        target := Hardware(found.value);
      }
      if port.None? {
        return Err(AttributeError);
      }
      port := Some(target);
      portName := Some(name);
      return Ok(None);
    }

    /** `__del__`: tell the thread to quit, then, when there is a port,
        send controller 120 (all sound off) on each of the sixteen
        channels and drop the port. */
    method Teardown()
      requires Valid()
      modifies this`quit, this`sent, this`port
      ensures Valid()
      ensures quit && port.None?
      ensures old(port).Some? ==> sent == old(sent) + Sends(old(port).value, Midi.Teardown())
      ensures old(port).None? ==> sent == old(sent)
    {
      quit := true;
      if port.Some? {
        var out := port.value;
        var all := Midi.Teardown();
        var channel := 0;
        while channel < 16
          invariant 0 <= channel <= 16
          invariant sent == old(sent) + Sends(out, all[..channel])
          invariant quit && Valid()
        {
          SendsSnoc(out, all, channel);
          sent := sent + [(out, SilenceChannel(channel))];
          channel := channel + 1;
        }
        assert all[..16] == all;
        port := None;
      }
    }
  }

  /** As written, a thread that is waiting for an exercise when it is told
      to quit never ends: every later wake-up without an exercise is Idle
      and the thread stays alive. */
  method QuitWhileIdle(p: CompPlayer, wakes: nat) returns (w: Wakeup)
    requires p.Valid() && p.threadAlive && p.idle && p.exercise.None?
    modifies p
    ensures p.quit && p.threadAlive && p.idle && w == Idle
  {
    p.Teardown();
    w := p.Begin(0.0, 0.0);
    var i := 0;
    while i < wakes
      invariant p.Valid() && p.quit && p.threadAlive && p.idle && p.exercise.None? && w == Idle
    {
      w := p.Begin(0.0, 0.0);
      i := i + 1;
    }
  }

  /** With the intended wait, the same thread ends on its next wake-up. */
  method QuitEndsIdle(p: CompPlayer) returns (w: Wakeup)
    requires p.Valid() && p.threadAlive && p.idle && p.exercise.None?
    modifies p
    ensures p.quit && !p.threadAlive && w == Quit
  {
    p.Teardown();
    w := p.BeginIntended(0.0, 0.0);
  }
}

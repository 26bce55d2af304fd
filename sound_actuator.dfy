/**
 * KX_SoundActuator: how positive and negative events and the six play
 * modes drive the actuator's "playing" flag and its audio handle.
 *
 * The audio library is abstract: the sound is a presence flag, a handle is
 * a value holding the status the library reports for it, its loop count
 * and whether it plays the ping-pong version of the sound. What the device
 * gives back when asked to play is an input (`device`): no handle, or a
 * handle with the status the device reports. Handles that are stopped are
 * recorded, in order, in `stopped`.
 */
module SoundActuation {
  import opened Optional

  /** KX_SOUNDACT_TYPE: what a negative event does to a sound that is playing. */
  datatype Mode = PlayStop | PlayEnd | LoopStop | LoopEnd | LoopBidirectional | LoopBidirectionalStop

  /** The status the audio library reports for a handle (AUD_Status). */
  datatype Status = Invalid | Playing | Paused | Stopped

  /** An audio handle; loop count -1 loops forever, 0 plays once. */
  datatype Handle = Handle(status: Status, loopCount: int, pingpong: bool)

  /** The actuator's state: m_sound, m_type, m_handle, m_isplaying, the pending events, and the handles it stopped. */
  datatype ActuatorState = ActuatorState(
    hasSound: bool,
    mode: Mode,
    handle: Option<Handle>,
    isPlaying: bool,
    posEvent: bool,
    negEvent: bool,
    stopped: seq<Handle>)

  /** What `play` sets up for a mode: (plays the ping-pong sound, loops forever). */
  function PlaySettings(m: Mode): (bool, bool) {
    match m
    case LoopBidirectional | LoopBidirectionalStop => (true, true)
    case LoopEnd | LoopStop => (false, true)
    case PlayStop | PlayEnd => (false, false)
  }

  /** The status of a possibly absent handle; no handle reads as Invalid. */
  function StatusOf(h: Option<Handle>): Status {
    match h
    case None => Invalid
    case Some(x) => x.status
  }

  /** The device is actually playing the actuator's sound. */
  predicate Audible(h: Option<Handle>) {
    StatusOf(h) == Playing
  }

  /** IsNegativeEvent(): a negative event arrived and no positive one. */
  predicate NegativeEvent(a: ActuatorState) {
    !a.posEvent && a.negEvent
  }

  /** The modes in which a negative event stops the sound at once. */
  predicate StopsAtOnce(m: Mode) {
    m == PlayStop || m == LoopStop || m == LoopBidirectionalStop
  }

  /** The modes in which a negative event lets the current loop finish. */
  predicate EndsLoop(m: Mode) {
    m == LoopEnd || m == LoopBidirectional
  }

  /** AUD_Handle_stop on the current handle, if any, and forget it. */
  function DropHandle(a: ActuatorState): (t: ActuatorState)
    ensures t.handle == None
    ensures a.handle.Some? ==> t.stopped == a.stopped + [a.handle.value]
    ensures a.handle.None? ==> t == a
    ensures t == a.(handle := None, stopped := t.stopped)
  {
    match a.handle
    case None => a
    case Some(h) => a.(handle := None, stopped := a.stopped + [h])
  }

  /**
   * play(): stops and drops any existing handle first; with no sound it
   * stops there. Otherwise it plays the sound (the ping-pong version in the
   * bidirectional modes), sets loop count -1 in the looping modes, and
   * marks the actuator as playing even when the device gave no handle.
   */
  function AfterPlay(a: ActuatorState, device: Option<Status>): (t: ActuatorState)
    ensures t.stopped == a.stopped + (if a.handle.Some? then [a.handle.value] else [])
    ensures !a.hasSound ==> t.handle == None && t.isPlaying == a.isPlaying
    ensures a.hasSound ==> t.isPlaying && (t.handle.Some? <==> device.Some?)
    ensures t.handle.Some? ==>
              && device == Some(t.handle.value.status)
              && (t.handle.value.loopCount == -1 <==> a.mode in {LoopEnd, LoopStop, LoopBidirectional, LoopBidirectionalStop})
              && (t.handle.value.loopCount == 0 <==> a.mode in {PlayStop, PlayEnd})
              && (t.handle.value.pingpong <==> a.mode in {LoopBidirectional, LoopBidirectionalStop})
    ensures t.hasSound == a.hasSound && t.mode == a.mode
    ensures t.posEvent == a.posEvent && t.negEvent == a.negEvent
  {
    var cleared := DropHandle(a);
    if !cleared.hasSound then cleared
    else
      var (pingpong, loop) := PlaySettings(a.mode);
      var handle := match device
        case None => None
        case Some(st) => Some(Handle(st, if loop then -1 else 0, pingpong));
      cleared.(handle := handle, isPlaying := true)
  }

  /** What Update leaves: the new state and whether the actuator stays active. */
  datatype Updated = Updated(next: ActuatorState, result: bool)

  /** The negative-event branch of Update, on a state whose events are already cleared. */
  function OnNegativeEvent(a: ActuatorState): ActuatorState {
    var t :=
      if a.isPlaying && Audible(a.handle) then
        match a.mode
        case PlayStop | LoopStop | LoopBidirectionalStop => DropHandle(a)
        case PlayEnd => a
        case LoopEnd | LoopBidirectional => a.(handle := Some(a.handle.value.(loopCount := 0)))
      else a;
    t.(isPlaying := false)
  }

  /**
   * Update(): clears the pending events; without a sound it reports false
   * and changes nothing else. A negative event stops, lets finish or leaves
   * the playing sound according to the mode and clears the playing flag; a
   * positive event plays the sound only if the actuator is not already
   * playing; no event starts nothing. The actuator stays active iff its
   * handle is then playing, and otherwise is marked as not playing.
   */
  function AfterUpdate(a: ActuatorState, device: Option<Status>): (u: Updated)
    ensures !u.next.posEvent && !u.next.negEvent
    ensures u.next.hasSound == a.hasSound && u.next.mode == a.mode
    ensures !a.hasSound ==> u == Updated(a.(posEvent := false, negEvent := false), false)
    ensures a.hasSound ==> (u.result <==> Audible(u.next.handle))
    ensures a.hasSound && !u.result ==> !u.next.isPlaying
    // A negative event never starts playback and always clears the flag.
    ensures NegativeEvent(a) && a.hasSound ==> !u.next.isPlaying
    ensures NegativeEvent(a) && a.hasSound && a.isPlaying && Audible(a.handle) ==>
              && (StopsAtOnce(a.mode) ==> u.next.handle == None && u.next.stopped == a.stopped + [a.handle.value])
              && (EndsLoop(a.mode) ==> u.next.handle == Some(a.handle.value.(loopCount := 0)) && u.next.stopped == a.stopped)
              && (a.mode == PlayEnd ==> u.next.handle == a.handle && u.next.stopped == a.stopped)
    ensures NegativeEvent(a) && !(a.isPlaying && Audible(a.handle)) ==>
              u.next.handle == a.handle && u.next.stopped == a.stopped
    // Neither event: nothing is started or stopped.
    ensures !a.posEvent && !a.negEvent ==> u.next.handle == a.handle && u.next.stopped == a.stopped
    // A positive event plays the sound only when the actuator is not flagged as playing.
    ensures a.posEvent && a.isPlaying ==> u.next.handle == a.handle && u.next.stopped == a.stopped
    ensures a.posEvent && a.hasSound && !a.isPlaying ==>
              u.next.handle == AfterPlay(a, device).handle && u.next.stopped == AfterPlay(a, device).stopped
  {
    var cleared := a.(posEvent := false, negEvent := false);
    if !a.hasSound then Updated(cleared, false)
    else
      var t :=
        if NegativeEvent(a) then OnNegativeEvent(cleared)
        else if a.posEvent && !a.isPlaying then AfterPlay(cleared, device)
        else cleared;
      if Audible(t.handle) then Updated(t, true)
      else Updated(t.(isPlaying := false), false)
  }

  /**
   * startSound(): a playing handle is left alone, a paused one resumes, and
   * anything else (no handle, stopped, invalid) plays the sound afresh.
   */
  function AfterStart(a: ActuatorState, device: Option<Status>): (t: ActuatorState)
    ensures StatusOf(a.handle) == Playing ==> t == a
    ensures StatusOf(a.handle) == Paused ==>
              t == a.(handle := Some(a.handle.value.(status := Playing)))
    ensures StatusOf(a.handle) in {Playing, Paused} ==> Audible(t.handle) && t.stopped == a.stopped
    ensures StatusOf(a.handle) !in {Playing, Paused} ==> t == AfterPlay(a, device)
    ensures a.hasSound && device == Some(Playing) ==> Audible(t.handle)
  {
    match StatusOf(a.handle)
    case Playing => a
    case Paused => a.(handle := Some(a.handle.value.(status := Playing)))
    case _ => AfterPlay(a, device)
  }

  /** pauseSound(): a playing handle is paused; nothing else changes. */
  function AfterPause(a: ActuatorState): (t: ActuatorState)
    ensures !Audible(t.handle)
    ensures t.handle.Some? <==> a.handle.Some?
    ensures Audible(a.handle) ==> t.handle == Some(a.handle.value.(status := Paused))
    ensures !Audible(a.handle) ==> t == a
    ensures t == a.(handle := t.handle)
  {
    if Audible(a.handle) then a.(handle := Some(a.handle.value.(status := Paused))) else a
  }

  /** stopSound(): stops and drops the handle; the playing flag is left as it is. */
  function AfterStop(a: ActuatorState): (t: ActuatorState)
    ensures t.handle == None && t.isPlaying == a.isPlaying
    ensures t.stopped == a.stopped + (if a.handle.Some? then [a.handle.value] else [])
  {
    DropHandle(a)
  }

  /**
   * The `!m_isplaying` guard on the positive branch: once a positive event
   * has started the sound and it keeps playing, a further positive event
   * does not play it again.
   */
  lemma HeldPulsePlaysOnce(a: ActuatorState, first: Option<Status>, second: Option<Status>)
    requires a.hasSound && a.posEvent && !a.isPlaying
    requires AfterUpdate(a, first).result
    ensures var u1 := AfterUpdate(a, first).next;
            var u2 := AfterUpdate(u1.(posEvent := true), second).next;
            u2.handle == u1.handle && u2.stopped == u1.stopped && u2.isPlaying
  {
  }

  /**
   * A negative event after a held pulse in a `*_STOP` mode stops exactly
   * the handle the pulse started.
   */
  lemma PulseThenReleaseStops(a: ActuatorState, device: Option<Status>)
    requires a.hasSound && a.posEvent && !a.isPlaying && StopsAtOnce(a.mode)
    requires AfterUpdate(a, device).result
    ensures var u1 := AfterUpdate(a, device).next;
            var u2 := AfterUpdate(u1.(negEvent := true), device);
            u1.handle.Some? && u2.next.handle == None && u2.next.stopped == u1.stopped + [u1.handle.value]
            && !u2.result && !u2.next.isPlaying
  {
  }

  class SoundActuator {
    var hasSound: bool
    var mode: Mode
    var handle: Option<Handle>
    var isPlaying: bool
    var posEvent: bool
    var negEvent: bool
    var stopped: seq<Handle>

    /** The actuator's fields as one value. */
    function State(): ActuatorState
      reads this
    {
      ActuatorState(hasSound, mode, handle, isPlaying, posEvent, negEvent, stopped)
    }

    /** A new actuator has no handle, is not playing and has no pending events. */
    constructor (hasSound: bool, mode: Mode)
      ensures State() == ActuatorState(hasSound, mode, None, false, false, false, [])
    {
      this.hasSound := hasSound;
      this.mode := mode;
      handle := None;
      isPlaying := false;
      posEvent, negEvent := false, false;
      stopped := [];
    }

    /** AUD_Handle_stop on the current handle, if any, and forget it. */
    method StopHandle()
      modifies this
      ensures State() == DropHandle(old(State()))
    {
      if handle.Some? {
        stopped := stopped + [handle.value];
        handle := None;
      }
    }

    /** play(). */
    method Play(device: Option<Status>)
      modifies this
      ensures State() == AfterPlay(old(State()), device)
    {
      StopHandle();
      if !hasSound {
        return;
      }
      var loop := false;
      var pingpong := false;
      match mode {
        case LoopBidirectional | LoopBidirectionalStop =>
          pingpong := true;
          loop := true;
        case LoopEnd | LoopStop =>
          loop := true;
        case PlayStop | PlayEnd =>
      }
      match device {
        case None =>
          handle := None;
        case Some(status) =>
          handle := Some(Handle(status, if loop then -1 else 0, pingpong));
      }
      isPlaying := true;
    }

    /** Update(): returns whether the actuator stays active. */
    method Update(device: Option<Status>) returns (result: bool)
      modifies this
      ensures Updated(State(), result) == AfterUpdate(old(State()), device)
    {
      var negative := !posEvent && negEvent;
      var positive := posEvent;
      posEvent, negEvent := false, false;
      if !hasSound {
        return false;
      }
      var playing := handle.Some? && handle.value.status == Playing;
      if negative {
        if isPlaying && playing {
          match mode {
            case PlayStop | LoopStop | LoopBidirectionalStop =>
              StopHandle();
            case PlayEnd =>
            case LoopEnd | LoopBidirectional =>
              handle := Some(handle.value.(loopCount := 0));
          }
        }
        isPlaying := false;
      } else if positive {
        if !isPlaying {
          Play(device);
        }
      }
      playing := handle.Some? && handle.value.status == Playing;
      if playing {
        result := true;
      } else {
        isPlaying := false;
        result := false;
      }
    }

    /** startSound(). */
    method StartSound(device: Option<Status>)
      modifies this
      ensures State() == AfterStart(old(State()), device)
    {
      var status := if handle.Some? then handle.value.status else Invalid;
      match status {
        case Playing =>
        case Paused =>
          handle := Some(handle.value.(status := Playing));
        case _ =>
          Play(device);
      }
    }

    /** pauseSound(). */
    method PauseSound()
      modifies this
      ensures State() == AfterPause(old(State()))
    {
      if handle.Some? && handle.value.status == Playing {
        handle := Some(handle.value.(status := Paused));
      }
    }

    /** stopSound(). */
    method StopSound()
      modifies this
      ensures State() == AfterStop(old(State()))
    {
      StopHandle();
    }

    /** ~KX_SoundActuator: stops the handle, if any, and frees the sound. */
    method Destroy()
      modifies this
      ensures State() == DropHandle(old(State())).(hasSound := false)
    {
      StopHandle();
      hasSound := false;
    }
  }
}

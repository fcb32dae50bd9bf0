/**
  The live session screen as a state machine over its events: the start and
  end buttons, unmounting, the audio and camera toggles, the socket opening or
  closing, the frame interval firing, a capture failing or finishing its
  encoding, an inbound message, and the speech effect. `Step` is the
  specification the class in module LiveCamera is proved against.
 */
module Lifecycle {
  import opened Optional
  import opened Narration

  /** A WebSocket's readyState. */
  datatype SocketState = Connecting | Open | Closing | Closed

  datatype Facing = Front | Back

  /** `toggleCameraFacing`: front becomes back and back becomes front. */
  function ToggleFacing(f: Facing): (r: Facing)
    ensures r != f
  {
    if f == Front then Back else Front
  }

  lemma ToggleFacingTwice(f: Facing)
    ensures ToggleFacing(ToggleFacing(f)) == f
  {
  }

  /** A socket that may still reach, or is in, the Open state. */
  predicate Live(socket: Option<SocketState>) {
    socket == Some(Connecting) || socket == Some(Open)
  }

  /**
    A socket whose `onmessage` may still run: Open, or Closing after `close()`
    while the server's last messages are still arriving.
   */
  predicate Delivers(socket: Option<SocketState>) {
    socket == Some(Open) || socket == Some(Closing)
  }

  /**
    `if (socket.current) socket.current.close()`: a connecting or open socket
    starts closing; a closing or closed one, or no socket at all, is left alone.
   */
  function CloseSocket(socket: Option<SocketState>): (r: Option<SocketState>)
    ensures !Live(r)
    ensures r.Some? == socket.Some?
    ensures !Live(socket) ==> r == socket
  {
    match socket
    case None => None
    case Some(st) => if st == Connecting || st == Open then Some(Closing) else socket
  }

  /** Everything the screen keeps, in the source's terms. */
  datatype Screen = Screen(
    mounted: bool,                  // the component is on screen
    active: bool,                   // isSessionActive
    audioOn: bool,                  // audioFeedback
    audioRef: bool,                 // audioFeedbackRef.current, synced by an effect
    facing: Facing,                 // cameraFacing
    socket: Option<SocketState>,    // socket.current: none, or the readyState of the last socket made
    intervalArmed: bool,            // the frame interval is set and not cleared
    capturing: nat,                 // ticks waiting for their photo to be taken and encoded
    framesSent: nat,                // frames handed to socket.send
    display: Display,               // feedback, reps, exercise
    last: LastSpoken,               // lastSpokenFeedback.current, lastSpokenTime.current
    speechQueue: Option<string>,    // speechQueue
    narratorQueue: seq<string>      // texts handed to Speech.speak since the last Speech.stop
  )

  const Initial: Screen :=
    Screen(true, false, true, true, Front, None, false, 0, 0, InitialDisplay, InitialLastSpoken, None, [])

  datatype Event =
    | StartPressed
    | EndPressed
    | Unmount
    | AudioPressed
    | AudioRefSync
    | FacingPressed
    | SocketOpened
    | SocketClosed
    | IntervalFired(cameraReady: bool)
    | CaptureFailed
    | EncodingDone
    | MessageArrived(data: Inbound, now: int)
    | SpeechEffect

  /** The session effect's cleanup: clear the interval, close the socket, stop speech. */
  function Cleanup(s: Screen): (r: Screen)
    ensures !r.intervalArmed && !Live(r.socket) && r.narratorQueue == []
    ensures r.active == s.active && r.mounted == s.mounted && r.framesSent == s.framesSent
  {
    s.(intervalArmed := false, socket := CloseSocket(s.socket), narratorQueue := [])
  }

  /** The effect of one event on the screen. */
  function Step(s: Screen, e: Event): (r: Screen)
    // a frame is sent only when an encoding finishes while the socket is Open, one at a time
    ensures r.framesSent != s.framesSent ==>
              e == EncodingDone && s.socket == Some(Open) && r.framesSent == s.framesSent + 1
    // a capture starts only on an armed tick, with a camera, while the socket is Open
    ensures r.capturing > s.capturing ==>
              e.IntervalFired? && e.cameraReady && s.intervalArmed && s.socket == Some(Open) &&
              r.capturing == s.capturing + 1
    // only starting a session arms the interval or makes a new socket
    ensures r.intervalArmed && !s.intervalArmed ==> e == StartPressed && r.socket == Some(Connecting)
    ensures Live(r.socket) && !Live(s.socket) ==> e == StartPressed
    // a socket becomes Open only by its own opening
    ensures r.socket == Some(Open) && s.socket != Some(Open) ==> e == SocketOpened
    // ending or unmounting disarms the interval and closes the socket
    ensures (e == EndPressed || e == Unmount) && s.active && s.mounted ==> !r.intervalArmed && !Live(r.socket)
    // the debounce state changes only when a message reaches a mounted screen over a delivering socket with audio on
    ensures r.last != s.last ==> e.MessageArrived? && s.mounted && Delivers(s.socket) && s.audioRef
  {
    match e
    case StartPressed =>
      if !s.mounted || s.active then s
      else s.(active := true, socket := Some(Connecting), intervalArmed := true)
    case EndPressed =>
      if !s.mounted || !s.active then s
      else
        // the old effect's cleanup, then the effect body for an inactive session
        var c := Cleanup(s);
        c.(active := false, socket := CloseSocket(c.socket))
    case Unmount =>
      if !s.mounted then s
      else if s.active then Cleanup(s).(mounted := false)
      else s.(mounted := false)
    case AudioPressed =>
      if !s.mounted then s else s.(audioOn := !s.audioOn)
    case AudioRefSync =>
      if !s.mounted then s else s.(audioRef := s.audioOn)
    case FacingPressed =>
      if !s.mounted then s else s.(facing := ToggleFacing(s.facing))
    case SocketOpened =>
      if s.socket == Some(Connecting) then s.(socket := Some(Open)) else s
    case SocketClosed =>
      if s.socket.Some? then s.(socket := Some(Closed)) else s
    case IntervalFired(cameraReady) =>
      if s.intervalArmed && cameraReady && s.socket == Some(Open) then s.(capturing := s.capturing + 1) else s
    case CaptureFailed =>
      if s.capturing == 0 then s else s.(capturing := s.capturing - 1)
    case EncodingDone =>
      if s.capturing == 0 then s
      else
        var sent := s.socket == Some(Open);
        s.(capturing := s.capturing - 1, framesSent := if sent then s.framesSent + 1 else s.framesSent)
    case MessageArrived(data, now) =>
      if !s.mounted || !Delivers(s.socket) then s
      else
        var h := Handle(s.display, s.last, data, now, s.audioRef);
        s.(display := h.display, last := h.last, speechQueue := if h.queued.Some? then h.queued else s.speechQueue)
    case SpeechEffect =>
      if s.mounted && s.speechQueue.Some? && s.speechQueue.value != "" then
        s.(narratorQueue := s.narratorQueue + [s.speechQueue.value], speechQueue := None)
      else s
  }

  /** The events in order. */
  ghost function Run(s: Screen, evs: seq<Event>): Screen
    decreases |evs|
  {
    if evs == [] then s else Run(Step(s, evs[0]), evs[1..])
  }

  /** The screen's invariant: the interval is armed exactly during a mounted session, which has a socket; outside one the socket is not live. */
  ghost predicate Valid(s: Screen) {
    (s.intervalArmed <==> s.active && s.mounted) &&
    (s.active && s.mounted ==> s.socket.Some?) &&
    (!(s.active && s.mounted) ==> !Live(s.socket)) &&
    (s.speechQueue.Some? ==> s.speechQueue.value != "")
  }

  /** No interval armed and no socket that can reach Open. */
  ghost predicate Quiescent(s: Screen) {
    !s.intervalArmed && !Live(s.socket)
  }

  lemma InitialValid()
    ensures Valid(Initial) && Quiescent(Initial)
  {
  }

  lemma StepPreservesValid(s: Screen, e: Event)
    requires Valid(s)
    ensures Valid(Step(s, e))
  {
  }

  lemma {:induction false} RunPreservesValid(s: Screen, evs: seq<Event>)
    requires Valid(s)
    ensures Valid(Run(s, evs))
    decreases |evs|
  {
    if evs != [] {
      StepPreservesValid(s, evs[0]);
      RunPreservesValid(Step(s, evs[0]), evs[1..]);
    }
  }

  /** Ending the session or unmounting always leaves the screen quiescent. */
  lemma CleanupPathsQuiesce(s: Screen)
    requires Valid(s)
    ensures Quiescent(Step(s, EndPressed)) && Quiescent(Step(s, Unmount))
  {
  }

  /** Ending when no session is active changes nothing, in particular when no socket exists. */
  lemma EndWithoutSessionIsNoop(s: Screen)
    requires !s.active
    ensures Step(s, EndPressed) == s
  {
  }

  /**
    Once quiescent, the screen sends no frame, starts no capture and stays
    quiescent until a session is started again (which cannot happen after
    unmounting).
   */
  lemma {:induction false} QuiescentSendsNothing(s: Screen, evs: seq<Event>)
    requires Quiescent(s)
    requires !s.mounted || forall i :: 0 <= i < |evs| ==> evs[i] != StartPressed
    ensures Run(s, evs).framesSent == s.framesSent
    ensures Run(s, evs).capturing <= s.capturing
    ensures Quiescent(Run(s, evs))
    decreases |evs|
  {
    if evs != [] {
      var t := Step(s, evs[0]);
      assert evs[0] != StartPressed || !s.mounted;
      assert Quiescent(t) && t.framesSent == s.framesSent && t.capturing <= s.capturing;
      assert t.mounted ==> s.mounted;
      assert forall i :: 0 <= i < |evs[1..]| ==> evs[1..][i] == evs[i + 1];
      QuiescentSendsNothing(t, evs[1..]);
    }
  }

  /** After the end button, no frame is sent (not even by a capture still in flight) until a new session starts. */
  lemma EndSessionStopsFrames(s: Screen, evs: seq<Event>)
    requires Valid(s)
    requires forall i :: 0 <= i < |evs| ==> evs[i] != StartPressed
    ensures Run(Step(s, EndPressed), evs).framesSent == s.framesSent
  {
    CleanupPathsQuiesce(s);
    QuiescentSendsNothing(Step(s, EndPressed), evs);
  }

  /** After unmounting, no frame is ever sent again. */
  lemma UnmountStopsFrames(s: Screen, evs: seq<Event>)
    requires Valid(s)
    ensures Run(Step(s, Unmount), evs).framesSent == s.framesSent
  {
    CleanupPathsQuiesce(s);
    QuiescentSendsNothing(Step(s, Unmount), evs);
  }

  /**
    A capture started in one session and still encoding when it ends is sent
    on the next session's socket once that one is Open: the send re-checks
    whichever socket is current, not the one the capture began under.
   */
  lemma StaleCaptureReachesNextSession()
    ensures
      var s1 := Step(Step(Step(Initial, StartPressed), SocketOpened), IntervalFired(true));
      var s2 := Step(Step(Step(s1, EndPressed), StartPressed), SocketOpened);
      s1.capturing == 1 && s2.capturing == 1 && Step(s2, EncodingDone).framesSent == 1
  {
  }

  /** With the audio reference off, messages never queue speech or touch the debounce state. */
  lemma MutedScreenNeverQueues(s: Screen, data: Inbound, now: int)
    requires !s.audioRef
    ensures Step(s, MessageArrived(data, now)).speechQueue == s.speechQueue
    ensures Step(s, MessageArrived(data, now)).last == s.last
  {
  }

  /** The narrator is given text only by the speech effect of a mounted screen, one text at a time, or is emptied. */
  lemma NarratorFedOnlyBySpeechEffect(s: Screen, e: Event)
    ensures var r := Step(s, e);
            r.narratorQueue != s.narratorQueue ==>
              r.narratorQueue == [] ||
              (e == SpeechEffect && s.mounted && s.speechQueue.Some? && r.narratorQueue == s.narratorQueue + [s.speechQueue.value])
  {
  }

  /** Once unmounted, no event gives the narrator text or changes the display, the debounce state or the speech slot. */
  lemma {:induction false} UnmountedIsInert(s: Screen, evs: seq<Event>)
    requires !s.mounted
    ensures Run(s, evs).narratorQueue == s.narratorQueue
    ensures Run(s, evs).display == s.display && Run(s, evs).last == s.last
    ensures Run(s, evs).speechQueue == s.speechQueue
    decreases |evs|
  {
    if evs != [] {
      var t := Step(s, evs[0]);
      assert !t.mounted && t.narratorQueue == s.narratorQueue && t.display == s.display &&
             t.last == s.last && t.speechQueue == s.speechQueue;
      UnmountedIsInert(t, evs[1..]);
    }
  }

  /** After unmounting nothing more is narrated; when a session was active, `Speech.stop` left the narrator empty. */
  lemma UnmountSilencesNarrator(s: Screen, evs: seq<Event>)
    ensures Run(Step(s, Unmount), evs).narratorQueue == Step(s, Unmount).narratorQueue
    ensures s.mounted && s.active ==> Run(Step(s, Unmount), evs).narratorQueue == []
  {
    UnmountedIsInert(Step(s, Unmount), evs);
  }

  /**
    A message still arriving on the closing socket after the end button is
    handled, and its feedback is narrated after the cleanup's `Speech.stop`.
   */
  lemma MessageWhileClosingIsNarrated(now: int)
    ensures
      var s := Step(Step(Step(Initial, StartPressed), SocketOpened), EndPressed);
      var m := Data(Message(Some("A"), None, None));
      var t := Step(s, MessageArrived(m, now));
      s.socket == Some(Closing) && s.narratorQueue == [] &&
      t.display.feedback == "A" && Step(t, SpeechEffect).narratorQueue == ["A"]
  {
  }
}

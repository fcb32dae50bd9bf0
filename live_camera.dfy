/**
  The live session screen as an object: its React state, refs, socket handle
  and frame interval are fields that the handlers update in place. Every
  handler is proved to do exactly what `Lifecycle.Step` says of its event, and
  to keep the screen's invariant `Lifecycle.Valid`.
 */
module LiveCamera {
  import opened Optional
  import opened Narration
  import opened Lifecycle

  class LiveCameraScreen {
    var mounted: bool
    var isSessionActive: bool
    var audioFeedback: bool
    var audioFeedbackRef: bool
    var cameraFacing: Facing
    var socket: Option<SocketState>
    var intervalArmed: bool
    var capturing: nat
    var framesSent: nat
    var feedback: string
    var reps: int
    var exercise: string
    var lastSpokenFeedback: Option<string>
    var lastSpokenTime: int
    var speechQueue: Option<string>
    var narratorQueue: seq<string>

    /** The abstract screen these fields hold. */
    function State(): Screen
      reads this
    {
      Screen(mounted, isSessionActive, audioFeedback, audioFeedbackRef, cameraFacing, socket,
             intervalArmed, capturing, framesSent, Display(feedback, reps, exercise),
             LastSpoken(lastSpokenFeedback, lastSpokenTime), speechQueue, narratorQueue)
    }

    ghost predicate Valid()
      reads this
    {
      Lifecycle.Valid(State())
    }

    /** The screen as first mounted: no session, audio on, front camera, no socket. */
    constructor ()
      ensures State() == Initial && Valid()
    {
      mounted, isSessionActive := true, false;
      audioFeedback, audioFeedbackRef := true, true;
      cameraFacing := Front;
      socket, intervalArmed := None, false;
      capturing, framesSent := 0, 0;
      feedback, reps, exercise := "Align yourself in the frame.", 0, "None";
      lastSpokenFeedback, lastSpokenTime := None, 0;
      speechQueue, narratorQueue := None, [];
    }

    /** The session effect's cleanup: clear the interval, close the socket, stop speech. */
    method Cleanup()
      modifies this
      ensures State() == Lifecycle.Cleanup(old(State()))
      ensures !intervalArmed && !Live(socket)
    {
      intervalArmed := false;
      if socket.Some? {
        socket := CloseSocket(socket);
      }
      narratorQueue := [];
    }

    /** The start button, then the session effect for an active session: a new socket and an armed interval. */
    method StartSession()
      requires Valid()
      modifies this
      ensures Valid() && State() == Step(old(State()), StartPressed)
      ensures old(mounted && !isSessionActive) ==> isSessionActive && socket == Some(Connecting) && intervalArmed
    {
      if mounted && !isSessionActive {
        isSessionActive := true;
        socket := Some(Connecting);
        intervalArmed := true;
      }
    }

    /** The end button: the active session's cleanup, then the effect body for an inactive session. */
    method EndSession()
      requires Valid()
      modifies this
      ensures Valid() && State() == Step(old(State()), EndPressed)
      ensures !intervalArmed && !Live(socket)
    {
      if mounted && isSessionActive {
        isSessionActive := false;
        Cleanup();
        if socket.Some? {
          socket := CloseSocket(socket);
        }
      }
    }

    /** The component leaves the screen: the last effect's cleanup runs if it belonged to an active session. */
    method Unmount()
      requires Valid()
      modifies this
      ensures Valid() && State() == Step(old(State()), Lifecycle.Unmount)
      ensures !mounted && !intervalArmed && !Live(socket)
    {
      if mounted {
        if isSessionActive {
          Cleanup();
        }
        mounted := false;
      }
    }

    /** The audio button flips the audio flag; the reference follows on `SyncAudioRef`. */
    method ToggleAudio()
      requires Valid()
      modifies this
      ensures Valid() && State() == Step(old(State()), AudioPressed)
      ensures old(mounted) ==> audioFeedback == !old(audioFeedback)
    {
      if mounted {
        audioFeedback := !audioFeedback;
      }
    }

    /** The effect that copies the audio flag into the reference the message handler reads. */
    method SyncAudioRef()
      requires Valid()
      modifies this
      ensures Valid() && State() == Step(old(State()), AudioRefSync)
      ensures old(mounted) ==> audioFeedbackRef == audioFeedback
    {
      if mounted {
        audioFeedbackRef := audioFeedback;
      }
    }

    /** `toggleCameraFacing`. */
    method ToggleCameraFacing()
      requires Valid()
      modifies this
      ensures Valid() && State() == Step(old(State()), FacingPressed)
      ensures old(mounted) ==> cameraFacing != old(cameraFacing)
    {
      if mounted {
        cameraFacing := ToggleFacing(cameraFacing);
      }
    }

    /** The socket's `onopen`. */
    method SocketOpened()
      requires Valid()
      modifies this
      ensures Valid() && State() == Step(old(State()), Lifecycle.SocketOpened)
    {
      if socket == Some(Connecting) {
        socket := Some(Open);
      }
    }

    /** The socket reaches CLOSED: closed by the server, failed to connect, or finished closing. */
    method SocketClosed()
      requires Valid()
      modifies this
      ensures Valid() && State() == Step(old(State()), Lifecycle.SocketClosed)
    {
      if socket.Some? {
        socket := Some(Closed);
      }
    }

    /** One firing of the frame interval: it starts a capture only with a camera and an Open socket. */
    method Tick(cameraReady: bool) returns (started: bool)
      requires Valid()
      modifies this
      ensures Valid() && State() == Step(old(State()), IntervalFired(cameraReady))
      ensures started <==> old(intervalArmed) && cameraReady && old(socket) == Some(Open)
    {
      started := intervalArmed && cameraReady && socket == Some(Open);
      if started {
        capturing := capturing + 1;
      }
    }

    /** A capture that fails to produce a photo ends without sending. */
    method CaptureFailed()
      requires Valid()
      modifies this
      ensures Valid() && State() == Step(old(State()), Lifecycle.CaptureFailed)
    {
      if capturing > 0 {
        capturing := capturing - 1;
      }
    }

    /** The reader's `onload`: the encoded frame is sent only if the current socket is Open now. */
    method FinishEncoding() returns (sent: bool)
      requires Valid()
      modifies this
      ensures Valid() && State() == Step(old(State()), EncodingDone)
      ensures sent <==> old(capturing) > 0 && socket == Some(Open)
      ensures framesSent == old(framesSent) + (if sent then 1 else 0)
    {
      sent := false;
      if capturing > 0 {
        capturing := capturing - 1;
        if socket == Some(Open) {
          framesSent := framesSent + 1;
          sent := true;
        }
      }
    }

    /** The `onmessage` handler's body, reading `audioOn` as the audio reference. */
    method OnMessage(data: Inbound, now: int, audioOn: bool) returns (queued: Option<string>)
      modifies this
      ensures var h := Handle(old(Display(feedback, reps, exercise)), old(LastSpoken(lastSpokenFeedback, lastSpokenTime)),
                              data, now, audioOn);
              queued == h.queued && feedback == h.display.feedback && reps == h.display.reps &&
              exercise == h.display.exercise && lastSpokenFeedback == h.last.text && lastSpokenTime == h.last.time
      ensures speechQueue == if queued.Some? then queued else old(speechQueue)
      ensures mounted == old(mounted) && isSessionActive == old(isSessionActive)
      ensures audioFeedback == old(audioFeedback) && audioFeedbackRef == old(audioFeedbackRef)
      ensures cameraFacing == old(cameraFacing) && socket == old(socket) && intervalArmed == old(intervalArmed)
      ensures capturing == old(capturing) && framesSent == old(framesSent) && narratorQueue == old(narratorQueue)
    {
      queued := None;
      if data.Data? {
        var m := data.msg;
        if m.feedback.Some? && m.feedback.value != "" {
          var text := m.feedback.value;
          feedback := text;
          var isNewFeedback := lastSpokenFeedback != Some(text);
          var hasEnoughTimePassed := now - lastSpokenTime > SpeechInterval;
          if audioOn && (isNewFeedback || hasEnoughTimePassed) {
            speechQueue := Some(text);
            queued := Some(text);
            lastSpokenFeedback := Some(text);
            lastSpokenTime := now;
          }
        }
        if m.reps.Some? {
          reps := m.reps.value;
        }
        if m.exercise.Some? && m.exercise.value != "" {
          exercise := m.exercise.value;
        }
      }
    }

    /** A message delivered by the current socket, Open or still Closing, to the mounted screen. */
    method Receive(data: Inbound, now: int) returns (queued: Option<string>)
      requires Valid()
      modifies this
      ensures Valid() && State() == Step(old(State()), MessageArrived(data, now))
      ensures queued == if !old(mounted && Delivers(socket)) then None
                        else Handle(old(Display(feedback, reps, exercise)), old(LastSpoken(lastSpokenFeedback, lastSpokenTime)),
                                    data, now, old(audioFeedbackRef)).queued
      ensures queued.Some? ==> old(mounted) && old(Delivers(socket)) && old(audioFeedbackRef)
    {
      queued := None;
      if mounted && (socket == Some(Open) || socket == Some(Closing)) {
        queued := OnMessage(data, now, audioFeedbackRef);
      }
    }

    /** The speech effect of a mounted screen: a queued text is handed to the narrator and the slot is cleared. */
    method SpeakQueued() returns (spoken: Option<string>)
      requires Valid()
      modifies this
      ensures Valid() && State() == Step(old(State()), SpeechEffect)
      ensures old(mounted) ==> spoken == old(speechQueue) && speechQueue == None
      ensures !old(mounted) ==> spoken == None && speechQueue == old(speechQueue)
      ensures narratorQueue == old(narratorQueue) + (if spoken.Some? then [spoken.value] else [])
    {
      spoken := None;
      if mounted && speechQueue.Some? && speechQueue.value != "" {
        spoken := speechQueue;
        narratorQueue := narratorQueue + [speechQueue.value];
        speechQueue := None;
      }
    }
  }

  /** A client: a session sends a frame while its socket is Open, and none after it ends. */
  method FrameScenario()
  {
    var screen := new LiveCameraScreen();
    screen.StartSession();
    screen.SocketOpened();
    var started := screen.Tick(true);
    assert started;
    var sent := screen.FinishEncoding();
    assert sent;
    started := screen.Tick(true);
    screen.EndSession();
    sent := screen.FinishEncoding();
    assert !sent;
  }

  /** A client: the worked message updates the display and is narrated once within a second. */
  method NarrationScenario(now: int)
  {
    var screen := new LiveCameraScreen();
    screen.StartSession();
    screen.SocketOpened();
    var m := Message(Some("Lower your hips"), Some(3), Some("Squat"));
    var queued := screen.Receive(Data(m), now);
    assert queued == Some("Lower your hips");
    assert screen.feedback == "Lower your hips" && screen.reps == 3 && screen.exercise == "Squat";
    var spoken := screen.SpeakQueued();
    assert spoken == Some("Lower your hips");
    queued := screen.Receive(Data(m), now + 1000);
    assert queued == None;
  }
}

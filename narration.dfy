/**
  The inbound-feedback handler of the live session screen: every message the
  pose service sends may update the displayed feedback, rep count and exercise
  label, and may queue the feedback text for speech. Speech of the same text is
  debounced: it is repeated only after more than `SpeechInterval` milliseconds.
 */
module Narration {
  import opened Optional

  /** Milliseconds that must pass (strictly) before the same text is narrated again. */
  const SpeechInterval: int := 4000

  /** A parsed inbound JSON object; each field may be absent. */
  datatype Message = Message(feedback: Option<string>, reps: Option<int>, exercise: Option<string>)

  /** An inbound socket event: no data (an empty payload) or a parsed JSON object. */
  datatype Inbound = NoData | Data(msg: Message)

  /** What the screen shows. */
  datatype Display = Display(feedback: string, reps: int, exercise: string)

  /** The last narrated text (none before the first narration) and when it was narrated. */
  datatype LastSpoken = LastSpoken(text: Option<string>, time: int)

  const InitialDisplay: Display := Display("Align yourself in the frame.", 0, "None")
  const InitialLastSpoken: LastSpoken := LastSpoken(None, 0)

  /** JavaScript truthiness of an optional string field: present and non-empty. */
  predicate Truthy(f: Option<string>) {
    f.Some? && f.value != ""
  }

  /** The debounce decision for a non-empty feedback text. */
  predicate ShouldSpeak(text: string, last: LastSpoken, now: int, audioOn: bool) {
    var isNewFeedback := last.text != Some(text);
    var hasEnoughTimePassed := now - last.time > SpeechInterval;
    audioOn && (isNewFeedback || hasEnoughTimePassed)
  }

  /** The handler's effect: the new display, the new last-spoken pair, and the text queued for speech. */
  datatype Handled = Handled(display: Display, last: LastSpoken, queued: Option<string>)

  /** One inbound message handled at time `now` with the audio flag `audioOn`. */
  function Handle(d: Display, last: LastSpoken, e: Inbound, now: int, audioOn: bool): (r: Handled)
    // speech is queued exactly for a non-empty feedback that passes the debounce
    ensures r.queued.Some? <==>
              e.Data? && Truthy(e.msg.feedback) && ShouldSpeak(e.msg.feedback.value, last, now, audioOn)
    // what is queued is the message's feedback, and it becomes the last-spoken pair
    ensures r.queued.Some? ==> r.queued == e.msg.feedback && r.last == LastSpoken(e.msg.feedback, now)
    ensures r.queued.None? ==> r.last == last
    // the displayed fields follow the message's fields, independently of speech
    ensures r.display.feedback == if e.Data? && Truthy(e.msg.feedback) then e.msg.feedback.value else d.feedback
    ensures r.display.reps == if e.Data? && e.msg.reps.Some? then e.msg.reps.value else d.reps
    ensures r.display.exercise == if e.Data? && Truthy(e.msg.exercise) then e.msg.exercise.value else d.exercise
  {
    match e
    case NoData => Handled(d, last, None)
    case Data(m) =>
      var afterFeedback :=
        if !Truthy(m.feedback) then Handled(d, last, None)
        else
          var text := m.feedback.value;
          if ShouldSpeak(text, last, now, audioOn)
          then Handled(d.(feedback := text), LastSpoken(Some(text), now), Some(text))
          else Handled(d.(feedback := text), last, None);
      var d1 := afterFeedback.display;
      var d2 := if m.reps.Some? then d1.(reps := m.reps.value) else d1;
      var d3 := if Truthy(m.exercise) then d2.(exercise := m.exercise.value) else d2;
      afterFeedback.(display := d3)
  }

  // ---------------------------------------------------------------------------
  // Single-message facts

  /** With audio off nothing is queued and the last-spoken pair is kept. */
  lemma MutedNeverQueues(d: Display, last: LastSpoken, e: Inbound, now: int)
    ensures Handle(d, last, e, now, false).queued == None
    ensures Handle(d, last, e, now, false).last == last
  {
  }

  /** A message without data, or with no field that counts, changes nothing. */
  lemma EmptyMessageChangesNothing(d: Display, last: LastSpoken, e: Inbound, now: int, audioOn: bool)
    requires e.NoData? || (!Truthy(e.msg.feedback) && e.msg.reps.None? && !Truthy(e.msg.exercise))
    ensures Handle(d, last, e, now, audioOn) == Handled(d, last, None)
  {
  }

  /** From the initial state, the first non-empty feedback heard with audio on is narrated. */
  lemma FirstFeedbackIsSpoken(d: Display, m: Message, now: int)
    requires Truthy(m.feedback)
    ensures Handle(d, InitialLastSpoken, Data(m), now, true).queued == m.feedback
  {
  }

  /** The debounce is strict: the same text exactly 4000 ms later is silent, 4001 ms later it is narrated. */
  lemma DebounceIsStrict(d: Display, text: string, t: int)
    requires text != ""
    ensures Handle(d, LastSpoken(Some(text), t), Data(Message(Some(text), None, None)), t + 4000, true).queued == None
    ensures Handle(d, LastSpoken(Some(text), t), Data(Message(Some(text), None, None)), t + 4001, true).queued == Some(text)
  {
  }

  /** A rep count of 0 is applied, an empty exercise label is not. */
  lemma ZeroRepsApplied(d: Display, last: LastSpoken, now: int, audioOn: bool)
    ensures Handle(d, last, Data(Message(None, Some(0), Some(""))), now, audioOn).display
            == d.(reps := 0)
  {
  }

  /** The worked scenario: a full message from the initial state. */
  lemma FullMessageScenario(now: int)
    ensures
      var m := Message(Some("Lower your hips"), Some(3), Some("Squat"));
      Handle(InitialDisplay, InitialLastSpoken, Data(m), now, true)
      == Handled(Display("Lower your hips", 3, "Squat"), LastSpoken(Some("Lower your hips"), now), Some("Lower your hips"))
  {
  }

  // ---------------------------------------------------------------------------
  // Streams of messages

  /** A message together with the time it was handled and the audio flag read then. */
  datatype Arrival = Arrival(data: Inbound, now: int, audioOn: bool)

  /** A narration request: the text and the time it was queued. */
  datatype Utterance = Utterance(text: string, time: int)

  datatype Replayed = Replayed(display: Display, last: LastSpoken, spoken: seq<Utterance>)

  /** Handles the arrivals in order, collecting every utterance queued. */
  ghost function Replay(d: Display, last: LastSpoken, arrivals: seq<Arrival>): Replayed
    decreases |arrivals|
  {
    if arrivals == [] then Replayed(d, last, [])
    else
      var a := arrivals[0];
      var h := Handle(d, last, a.data, a.now, a.audioOn);
      var rest := Replay(h.display, h.last, arrivals[1..]);
      var here := if h.queued.Some? then [Utterance(h.queued.value, a.now)] else [];
      Replayed(rest.display, rest.last, here + rest.spoken)
  }

  /** After a replay, the last-spoken pair is the last utterance, or unchanged when nothing was spoken. */
  lemma {:induction false} ReplayLastSpoken(d: Display, last: LastSpoken, arrivals: seq<Arrival>)
    ensures var r := Replay(d, last, arrivals);
            if r.spoken == [] then r.last == last
            else r.last == LastSpoken(Some(r.spoken[|r.spoken| - 1].text), r.spoken[|r.spoken| - 1].time)
    decreases |arrivals|
  {
    if arrivals != [] {
      var a := arrivals[0];
      var h := Handle(d, last, a.data, a.now, a.audioOn);
      ReplayLastSpoken(h.display, h.last, arrivals[1..]);
    }
  }

  /**
    The debounce guarantee: two consecutive narrations of the same text are
    more than `SpeechInterval` apart, and the first narration of the text
    last spoken before the stream is too. It holds whatever the arrival times.
   */
  lemma {:induction false} SameTextSpacing(d: Display, last: LastSpoken, arrivals: seq<Arrival>)
    ensures var u := Replay(d, last, arrivals).spoken;
            forall k :: 0 <= k < |u| - 1 && u[k].text == u[k + 1].text ==> u[k + 1].time - u[k].time > SpeechInterval
    ensures var u := Replay(d, last, arrivals).spoken;
            |u| > 0 && last.text == Some(u[0].text) ==> u[0].time - last.time > SpeechInterval
    decreases |arrivals|
  {
    if arrivals != [] {
      var a := arrivals[0];
      var h := Handle(d, last, a.data, a.now, a.audioOn);
      SameTextSpacing(h.display, h.last, arrivals[1..]);
      var rest := Replay(h.display, h.last, arrivals[1..]).spoken;
      var u := Replay(d, last, arrivals).spoken;
      if h.queued.Some? {
        assert u == [Utterance(h.queued.value, a.now)] + rest;
        forall k | 0 <= k < |u| - 1 && u[k].text == u[k + 1].text
          ensures u[k + 1].time - u[k].time > SpeechInterval
        {
          if k > 0 {
            assert u[k] == rest[k - 1] && u[k + 1] == rest[k];
          }
        }
      } else {
        assert u == rest;
      }
    }
  }

  /** With audio off throughout, a stream narrates nothing and keeps the last-spoken pair. */
  lemma {:induction false} MutedStreamIsSilent(d: Display, last: LastSpoken, arrivals: seq<Arrival>)
    requires forall i :: 0 <= i < |arrivals| ==> !arrivals[i].audioOn
    ensures Replay(d, last, arrivals).spoken == []
    ensures Replay(d, last, arrivals).last == last
    decreases |arrivals|
  {
    if arrivals != [] {
      var a := arrivals[0];
      var h := Handle(d, last, a.data, a.now, a.audioOn);
      assert !a.audioOn;
      MutedStreamIsSilent(h.display, h.last, arrivals[1..]);
    }
  }

  /** `u` was queued by arrival `a`: its non-empty feedback, heard with audio on, stamped with its time. */
  ghost predicate QueuedBy(u: Utterance, a: Arrival) {
    a.audioOn && a.data.Data? && a.data.msg.feedback == Some(u.text) && u.text != "" && a.now == u.time
  }

  /** `u` was queued by one of the arrivals. */
  ghost predicate QueuedByOneOf(u: Utterance, arrivals: seq<Arrival>) {
    exists i :: 0 <= i < |arrivals| && QueuedBy(u, arrivals[i])
  }

  /** Every utterance was queued by one of the arrivals. */
  lemma {:induction false} UtterancesComeFromAudibleFeedback(d: Display, last: LastSpoken, arrivals: seq<Arrival>)
    ensures forall k :: 0 <= k < |Replay(d, last, arrivals).spoken| ==>
                          QueuedByOneOf(Replay(d, last, arrivals).spoken[k], arrivals)
    decreases |arrivals|
  {
    if arrivals != [] {
      var a := arrivals[0];
      var tail := arrivals[1..];
      var h := Handle(d, last, a.data, a.now, a.audioOn);
      UtterancesComeFromAudibleFeedback(h.display, h.last, tail);
      var rest := Replay(h.display, h.last, tail).spoken;
      var u := Replay(d, last, arrivals).spoken;
      forall k | 0 <= k < |u|
        ensures QueuedByOneOf(u[k], arrivals)
      {
        if h.queued.Some? && k == 0 {
          assert QueuedBy(u[0], arrivals[0]);
        } else {
          var j := if h.queued.Some? then k - 1 else k;
          assert u[k] == rest[j] && QueuedByOneOf(rest[j], tail);
          var i :| 0 <= i < |tail| && QueuedBy(rest[j], tail[i]);
          assert QueuedBy(u[k], arrivals[i + 1]);
        }
      }
    }
  }

  /** The same feedback twice within one second, audio on: only the first is narrated. */
  lemma RepeatWithinSecondSpokenOnce(t: int)
    ensures
      var m := Data(Message(Some("Lower your hips"), None, None));
      Replay(InitialDisplay, InitialLastSpoken, [Arrival(m, t, true), Arrival(m, t + 1000, true)]).spoken
      == [Utterance("Lower your hips", t)]
  {
    var m := Data(Message(Some("Lower your hips"), None, None));
    var arrivals := [Arrival(m, t, true), Arrival(m, t + 1000, true)];
    var h := Handle(InitialDisplay, InitialLastSpoken, m, t, true);
    var h2 := Handle(h.display, h.last, m, t + 1000, true);
    assert h2.queued == None;
    assert arrivals[1..] == [Arrival(m, t + 1000, true)];
    assert arrivals[1..][1..] == [];
    assert Replay(h2.display, h2.last, []).spoken == [];
    assert Replay(h.display, h.last, arrivals[1..]).spoken == [];
  }

  /**
    The debounce remembers only the last narrated text: A, B, A arriving 1 ms
    apart with audio on narrate A twice, 2 ms apart.
   */
  lemma InterleavedTextRepeatsSoon(t: int)
    ensures
      var a := Data(Message(Some("A"), None, None));
      var b := Data(Message(Some("B"), None, None));
      Replay(InitialDisplay, InitialLastSpoken, [Arrival(a, t, true), Arrival(b, t + 1, true), Arrival(a, t + 2, true)]).spoken
      == [Utterance("A", t), Utterance("B", t + 1), Utterance("A", t + 2)]
  {
    var a := Data(Message(Some("A"), None, None));
    var b := Data(Message(Some("B"), None, None));
    var arrivals := [Arrival(a, t, true), Arrival(b, t + 1, true), Arrival(a, t + 2, true)];
    var h1 := Handle(InitialDisplay, InitialLastSpoken, a, t, true);
    var h2 := Handle(h1.display, h1.last, b, t + 1, true);
    var h3 := Handle(h2.display, h2.last, a, t + 2, true);
    assert h1.queued == Some("A") && h2.queued == Some("B") && h3.queued == Some("A");
    assert arrivals[1..] == [Arrival(b, t + 1, true), Arrival(a, t + 2, true)];
    assert arrivals[1..][1..] == [Arrival(a, t + 2, true)];
    assert arrivals[1..][1..][1..] == [];
    assert Replay(h3.display, h3.last, []).spoken == [];
    assert Replay(h2.display, h2.last, arrivals[1..][1..]).spoken == [Utterance("A", t + 2)];
    assert Replay(h1.display, h1.last, arrivals[1..]).spoken == [Utterance("B", t + 1), Utterance("A", t + 2)];
  }
}

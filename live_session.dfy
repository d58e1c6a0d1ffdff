/** The live audio conversation of `App.tsx`: the transcript that grows as
    transcription fragments arrive, and the playback queue that starts each
    synthesized-speech chunk when the previous one ends. The vendor session,
    the microphone and the audio node graph are outside; what the component
    keeps in state and in refs is the class below. */
module LiveSession {
  import opened Wrappers
  import opened Types
  import Pcm

  // ---------------------------------------------------------------------------
  // Transcript merge
  // ---------------------------------------------------------------------------

  /** The `setTranscriptions(prev => ...)` updater: a last line of the same
      role is replaced by the role's accumulated text, otherwise a line is
      appended. */
  function MergeTranscription(prev: seq<Transcription>, role: Role, text: string): seq<Transcription> {
    if prev != [] && prev[|prev| - 1].role == role then prev[..|prev| - 1] + [Transcription(role, text)]
    else prev + [Transcription(role, text)]
  }

  /** Neighbouring lines of the transcript always belong to different speakers. */
  predicate Alternating(ts: seq<Transcription>) {
    forall i :: 0 < i < |ts| ==> ts[i - 1].role != ts[i].role
  }

  /** The merge ends the transcript with the new text, grows it by at most one
      line, touches nothing before the last line, and keeps speakers
      alternating. */
  lemma MergeTranscriptionSpec(prev: seq<Transcription>, role: Role, text: string)
    ensures var r := MergeTranscription(prev, role, text);
      && r != [] && r[|r| - 1] == Transcription(role, text)
      && |prev| <= |r| <= |prev| + 1
      && (|r| == |prev| <==> prev != [] && prev[|prev| - 1].role == role)
      && r[..|r| - 1] == (if |r| == |prev| then prev[..|prev| - 1] else prev)
      && (Alternating(prev) ==> Alternating(r))
  {
  }

  /** The transcript of a session: the lines shown and the two per-speaker
      buffers of `currentTranscriptionRef`. */
  datatype TranscriptState = TranscriptState(lines: seq<Transcription>, user: string, ai: string)

  /** The transcript part of one `onmessage`: an input fragment grows the user
      buffer and merges it into the lines, an output fragment does the same
      for the AI buffer, and a turn end empties both buffers. Each updater
      sees the buffer as it is when the updater is called. */
  function ApplyTranscript(t: TranscriptState, msg: ServerMessage): TranscriptState {
    var t1 :=
      if msg.inputAudioTranscription.Some? then
        var u := t.user + msg.inputAudioTranscription.value;
        TranscriptState(MergeTranscription(t.lines, User, u), u, t.ai)
      else t;
    var t2 :=
      if msg.outputTranscription.Some? then
        var a := t1.ai + msg.outputTranscription.value;
        TranscriptState(MergeTranscription(t1.lines, Ai, a), t1.user, a)
      else t1;
    if msg.turnComplete then t2.(user := [], ai := []) else t2
  }

  /** One message adds at most two lines, changes nothing before the old
      last line, leaves the lines alone when it carries no fragment, and
      keeps speakers alternating. */
  lemma {:induction false} ApplyTranscriptLines(t: TranscriptState, msg: ServerMessage)
    ensures var r := ApplyTranscript(t, msg);
      && |t.lines| <= |r.lines| <= |t.lines| + 2
      && (t.lines != [] ==> r.lines[..|t.lines| - 1] == t.lines[..|t.lines| - 1])
      && (msg.inputAudioTranscription.None? && msg.outputTranscription.None? ==> r.lines == t.lines)
      && (Alternating(t.lines) ==> Alternating(r.lines))
  {
    var t1 :=
      if msg.inputAudioTranscription.Some? then
        var u := t.user + msg.inputAudioTranscription.value;
        TranscriptState(MergeTranscription(t.lines, User, u), u, t.ai)
      else t;
    if msg.inputAudioTranscription.Some? {
      MergeTranscriptionSpec(t.lines, User, t1.user);
    }
    if msg.outputTranscription.Some? {
      var a := t1.ai + msg.outputTranscription.value;
      MergeTranscriptionSpec(t1.lines, Ai, a);
      if t.lines != [] {
        MergeKeepsPrefix(t1.lines, Ai, a, |t.lines| - 1);
      }
    }
  }

  /** The merge leaves every line before the last one untouched. */
  lemma MergeKeepsPrefix(prev: seq<Transcription>, role: Role, text: string, n: int)
    requires 0 <= n < |prev|
    ensures MergeTranscription(prev, role, text)[..n] == prev[..n]
  {
  }

  /** The buffers grow by the fragments, or are emptied at a turn end; the
      last line holds the whole buffer of the last speaker heard. */
  lemma ApplyTranscriptBuffers(t: TranscriptState, msg: ServerMessage)
    ensures var r := ApplyTranscript(t, msg);
      && (msg.turnComplete ==> r.user == [] && r.ai == [])
      && (!msg.turnComplete ==>
            && r.user == t.user + msg.inputAudioTranscription.GetOr([])
            && r.ai == t.ai + msg.outputTranscription.GetOr([]))
      && (msg.outputTranscription.Some? ==>
            r.lines[|r.lines| - 1] == Transcription(Ai, t.ai + msg.outputTranscription.value))
      && (msg.inputAudioTranscription.Some? && msg.outputTranscription.None? ==>
            r.lines[|r.lines| - 1] == Transcription(User, t.user + msg.inputAudioTranscription.value))
  {
  }

  /** A message that only ends the turn. */
  const TurnEnd: ServerMessage := ServerMessage(None, None, true, None, false)

  /** A message that only carries an output fragment. */
  function OutputOnly(fragment: string): ServerMessage {
    ServerMessage(None, Some(fragment), false, None, false)
  }

  /** After a turn end, the AI's next fragment lands on a transcript whose
      last line is still the AI's: that line is overwritten with the fragment
      alone, so the previous turn's AI text leaves the transcript. */
  lemma {:induction false} TurnEndThenOutput(t: TranscriptState, fragment: string)
    requires t.lines != [] && t.lines[|t.lines| - 1].role == Ai
    ensures var r := ApplyTranscript(ApplyTranscript(t, TurnEnd), OutputOnly(fragment));
      && |r.lines| == |t.lines|
      && r.lines[..|t.lines| - 1] == t.lines[..|t.lines| - 1]
      && r.lines[|t.lines| - 1] == Transcription(Ai, fragment)
      && r.ai == fragment
  {
    var t1 := ApplyTranscript(t, TurnEnd);
    assert t1 == TranscriptState(t.lines, [], []);
    MergeTranscriptionSpec(t.lines, Ai, [] + fragment);
    assert [] + fragment == fragment;
  }

  /** The transcript part of one `onmessage` as React runs it: an updater
      passed to `setTranscriptions` runs at once only when no update of the
      component is pending; otherwise it is queued and runs at the next
      render, after the handler has returned, and reads the buffers as the
      handler left them (emptied, after a turn end). The first updater of a
      message makes the second one queued. */
  function ApplyTranscriptAsWritten(t: TranscriptState, msg: ServerMessage, pending: bool): TranscriptState {
    var u := t.user + msg.inputAudioTranscription.GetOr([]);
    var a := t.ai + msg.outputTranscription.GetOr([]);
    var finalUser := if msg.turnComplete then [] else u;
    var finalAi := if msg.turnComplete then [] else a;
    var userNow := !pending;
    var aiNow := !pending && msg.inputAudioTranscription.None?;
    var l1 :=
      if msg.inputAudioTranscription.Some? then MergeTranscription(t.lines, User, if userNow then u else finalUser)
      else t.lines;
    var l2 :=
      if msg.outputTranscription.Some? then MergeTranscription(l1, Ai, if aiNow then a else finalAi)
      else l1;
    TranscriptState(l2, finalUser, finalAi)
  }

  /** Within a turn the queued updaters read the same buffers as immediate
      ones would, so the two agree. */
  lemma AsWrittenAgreesWithinTurn(t: TranscriptState, msg: ServerMessage, pending: bool)
    requires !msg.turnComplete
    ensures ApplyTranscriptAsWritten(t, msg, pending) == ApplyTranscript(t, msg)
  {
  }

  /** A message carrying both fragments and the turn end: the queued AI
      updater reads the emptied buffer and the AI line comes out blank, where
      the text heard was "there". */
  lemma AsWrittenBlanksAiLine()
    ensures var msg := ServerMessage(Some("hi"), Some("there"), true, None, false);
      var t := TranscriptState([], [], []);
      && ApplyTranscriptAsWritten(t, msg, false).lines == [Transcription(User, "hi"), Transcription(Ai, [])]
      && ApplyTranscript(t, msg).lines == [Transcription(User, "hi"), Transcription(Ai, "there")]
  {
    var msg := ServerMessage(Some("hi"), Some("there"), true, None, false);
    assert [] + "hi" == "hi" && [] + "there" == "there";
  }

  // ---------------------------------------------------------------------------
  // Playback queue
  // ---------------------------------------------------------------------------

  /** The output context's sample rate, and `decodeAudioData`'s channel count. */
  const OutputSampleRate: real := 24000.0
  const OutputChannels: nat := 1

  /** One started chunk: its source node, start time and length in seconds. */
  datatype Slot = Slot(source: nat, start: real, duration: real)

  function End(s: Slot): real {
    s.start + s.duration
  }

  /** No chunk of the schedule starts before an earlier one has ended. */
  predicate NoOverlap(schedule: seq<Slot>) {
    forall i, j :: 0 <= i < j < |schedule| ==> End(schedule[i]) <= schedule[j].start
  }

  /** The source nodes started in a schedule. */
  function SourcesOf(schedule: seq<Slot>): set<nat> {
    set i | 0 <= i < |schedule| :: schedule[i].source
  }

  /** What the playback refs keep true: chunks do not overlap and all end by
      the clock, node numbers are below the count of nodes created, and every
      node in the set is one that was started. */
  predicate PlaybackInvariant(schedule: seq<Slot>, next: real, sources: set<nat>, created: nat) {
    && NoOverlap(schedule)
    && (forall i :: 0 <= i < |schedule| ==> schedule[i].duration >= 0.0 && End(schedule[i]) <= next)
    && (forall i :: 0 <= i < |schedule| ==> schedule[i].source < created)
    && sources <= SourcesOf(schedule)
  }

  /** A chunk can be played when its bytes form whole 16-bit samples and at
      least one frame. */
  predicate Playable(pcm: seq<Pcm.byte>) {
    |pcm| % 2 == 0 && |pcm| / 2 / OutputChannels > 0
  }

  /** `buffer.duration` of a playable chunk. */
  function Duration(pcm: seq<Pcm.byte>): (d: real)
    ensures d >= 0.0
  {
    (|pcm| / 2 / OutputChannels) as real / OutputSampleRate
  }

  function Max(a: real, b: real): real {
    if a >= b then a else b
  }

  /** One `onmessage` event, reduced to what the handler reads. `audio` is the
      decoded payload of a non-empty `inlineData.data`. */
  datatype ServerMessage = ServerMessage(
    inputAudioTranscription: Option<string>,
    outputTranscription: Option<string>,
    turnComplete: bool,
    audio: Option<seq<Pcm.byte>>,
    interrupted: bool)

  // ---------------------------------------------------------------------------
  // Microphone streams
  // ---------------------------------------------------------------------------

  /** The microphone streams of a session: the ones still capturing, the one
      `micStreamRef` holds, and how many `getUserMedia` has handed out; the
      streams are numbered in that order. */
  datatype MicStreams = MicStreams(open: set<nat>, held: Option<nat>, issued: nat)

  /** `useRef<MediaStream | null>(null)`: no stream yet. */
  const NoStreams: MicStreams := MicStreams({}, None, 0)

  /** Every stream number, open or held, is one already handed out. */
  predicate MicNumbered(m: MicStreams) {
    && (forall s :: s in m.open ==> s < m.issued)
    && (m.held.Some? ==> m.held.value < m.issued)
  }

  /** A granted `getUserMedia`: a new stream opens and `micStreamRef` is
      overwritten with it, whatever it held before. */
  function AcquireMic(m: MicStreams): MicStreams {
    MicStreams(m.open + {m.issued}, Some(m.issued), m.issued + 1)
  }

  /** The microphone part of `stopAudioAnalysis`: the held stream's tracks
      are stopped and the ref is cleared; other streams are not reached. */
  function ReleaseMic(m: MicStreams): MicStreams {
    match m.held
    case None => m
    case Some(s) => MicStreams(m.open - {s}, None, m.issued)
  }

  /** A granted microphone gives a stream that is not already open, and the
      ref holds it. */
  lemma AcquireMicSpec(m: MicStreams)
    requires MicNumbered(m)
    ensures var r := AcquireMic(m);
      && MicNumbered(r) && r.held.Some?
      && r.held.value !in m.open
      && r.open == m.open + {r.held.value}
  {
  }

  /** Stopping closes exactly the held stream and clears the ref; stopping
      again changes nothing. */
  lemma ReleaseMicSpec(m: MicStreams)
    ensures var r := ReleaseMic(m);
      && r.held.None?
      && (m.held.Some? ==> r.open == m.open - {m.held.value})
      && (m.held.None? ==> r.open == m.open)
      && ReleaseMic(r) == r
      && (MicNumbered(m) ==> MicNumbered(r))
  {
  }

  /** A second start while a stream is still held (after `onclose`, which
      leaves the ref alone) overwrites the ref: the stop that follows leaves
      the earlier stream open. */
  lemma AcquireOverwritesHeld(m: MicStreams)
    requires MicNumbered(m) && m.held.Some? && m.held.value in m.open
    ensures m.held.value in ReleaseMic(AcquireMic(m)).open
  {
  }

  /** Start, `onclose`, start and stop from the initial state: stream 0 is
      never stopped. */
  lemma StartCloseStartStopLeaks()
    ensures ReleaseMic(AcquireMic(AcquireMic(NoStreams))).open == {0}
  {
    assert AcquireMic(AcquireMic(NoStreams)) == MicStreams({0, 1}, Some(1), 2);
  }

  /** A start that first stops the stream the ref still holds. */
  function AcquireMicReleasing(m: MicStreams): MicStreams {
    AcquireMic(ReleaseMic(m))
  }

  /** At most the held stream is open. */
  predicate OnlyHeldOpen(m: MicStreams) {
    forall s :: s in m.open ==> m.held == Some(s)
  }

  /** With the releasing start, at most the held stream is ever open, so any
      stop leaves no stream open. */
  lemma ReleasingStartKeepsOneOpen(m: MicStreams)
    requires OnlyHeldOpen(m)
    ensures OnlyHeldOpen(AcquireMicReleasing(m))
    ensures OnlyHeldOpen(ReleaseMic(m)) && ReleaseMic(m).open == {}
  {
    var r := AcquireMicReleasing(m);
    assert ReleaseMic(m).open == {} by {
      if m.held.Some? {
        assert forall s :: s in m.open ==> s == m.held.value;
      }
    }
    assert r.open == {ReleaseMic(m).issued};
  }

  const MicrophoneError: string := "Microphone access required."
  const StreamError: string := "Live stream interrupted."

  /** The live-session state of the component: the active flag, the
      microphone streams (`micStreamRef` and the streams it has held), the
      transcript and its per-speaker buffers (`currentTranscriptionRef`), the
      playback clock (`nextStartTimeRef`) and the set of scheduled or playing
      source nodes (`sourcesRef`), whose nodes are numbered in creation order. */
  class LiveAudioSession {
    var active: bool
    var mic: MicStreams
    var transcriptions: seq<Transcription>
    var userText: string
    var aiText: string
    var nextStartTime: real
    var sources: set<nat>
    var sourcesCreated: nat
    /** The chunks started since the clock was last reset, in start order. */
    ghost var schedule: seq<Slot>

    ghost predicate Valid()
      reads this
    {
      && Alternating(transcriptions)
      && PlaybackInvariant(schedule, nextStartTime, sources, sourcesCreated)
      && MicNumbered(mic)
    }

    /** The transcript lines with the two buffers. */
    function Transcript(): TranscriptState
      reads this
    {
      TranscriptState(transcriptions, userText, aiText)
    }

    /** What the playback half of one `onmessage` does to the clock, the
        source set and the schedule, and which sources it stops: an
        undecodable chunk ends the handler after moving the clock up to
        `now`; a playable one starts a new source at max(clock, now); an
        interruption then stops every source, the new one included, and
        resets the clock. */
    twostate predicate AudioHandled(msg: ServerMessage, now: real, stopped: set<nat>)
      reads this
    {
      var slot := Slot(old(sourcesCreated), Max(old(nextStartTime), now), Duration(msg.audio.GetOr([])));
      var played := msg.audio.Some? && Playable(msg.audio.value);
      && (msg.audio.Some? && !Playable(msg.audio.value) ==>
            && stopped == {} && nextStartTime == Max(old(nextStartTime), now)
            && sources == old(sources) && schedule == old(schedule) && sourcesCreated == old(sourcesCreated))
      && (msg.audio.None? && !msg.interrupted ==>
            && stopped == {} && nextStartTime == old(nextStartTime)
            && sources == old(sources) && schedule == old(schedule) && sourcesCreated == old(sourcesCreated))
      && (played && !msg.interrupted ==>
            && stopped == {} && schedule == old(schedule) + [slot] && nextStartTime == End(slot)
            && sources == old(sources) + {slot.source} && sourcesCreated == old(sourcesCreated) + 1)
      && (msg.interrupted && (msg.audio.None? || played) ==>
            && stopped == old(sources) + (if played then {slot.source} else {})
            && sources == {} && nextStartTime == 0.0 && schedule == []
            && sourcesCreated == old(sourcesCreated) + (if played then 1 else 0))
    }

    /** The component's initial state: `useRef(0)`, `new Set()`, no transcript. */
    constructor ()
      ensures Valid()
      ensures !active && mic == NoStreams && transcriptions == [] && userText == [] && aiText == []
      ensures nextStartTime == 0.0 && sources == {} && schedule == []
    {
      active, mic := false, NoStreams;
      transcriptions, userText, aiText := [], [], [];
      nextStartTime, sources, sourcesCreated := 0.0, {}, 0;
      schedule := [];
    }

    /** An input (user speech) transcription fragment. */
    method OnInputTranscription(fragment: string)
      requires Valid()
      modifies this`userText, this`transcriptions
      ensures Valid()
      ensures userText == old(userText) + fragment
      ensures transcriptions == MergeTranscription(old(transcriptions), User, userText)
      ensures |old(transcriptions)| <= |transcriptions| <= |old(transcriptions)| + 1
    {
      userText := userText + fragment;
      MergeTranscriptionSpec(transcriptions, User, userText);
      transcriptions := MergeTranscription(transcriptions, User, userText);
    }

    /** An output (AI speech) transcription fragment. */
    method OnOutputTranscription(fragment: string)
      requires Valid()
      modifies this`aiText, this`transcriptions
      ensures Valid()
      ensures aiText == old(aiText) + fragment
      ensures transcriptions == MergeTranscription(old(transcriptions), Ai, aiText)
      ensures |old(transcriptions)| <= |transcriptions| <= |old(transcriptions)| + 1
    {
      aiText := aiText + fragment;
      MergeTranscriptionSpec(transcriptions, Ai, aiText);
      transcriptions := MergeTranscription(transcriptions, Ai, aiText);
    }

    /** `turnComplete` empties both buffers; the transcript stays. */
    method OnTurnComplete()
      requires Valid()
      modifies this`userText, this`aiText
      ensures Valid()
      ensures userText == [] && aiText == []
    {
      userText, aiText := [], [];
    }

    /** An audio chunk: the clock first moves up to `now`; a chunk that cannot
        be decoded ends the handler there; otherwise a new source starts at
        the clock, the clock advances by the chunk's duration and the source
        joins the set. */
    method PlayChunk(pcm: seq<Pcm.byte>, now: real) returns (played: bool)
      requires Valid()
      modifies this`nextStartTime, this`sources, this`sourcesCreated, this`schedule
      ensures Valid()
      ensures played <==> Playable(pcm)
      ensures !played ==>
        && nextStartTime == Max(old(nextStartTime), now)
        && sources == old(sources) && schedule == old(schedule) && sourcesCreated == old(sourcesCreated)
      ensures played ==>
        var slot := Slot(old(sourcesCreated), Max(old(nextStartTime), now), Duration(pcm));
        && schedule == old(schedule) + [slot]
        && nextStartTime == End(slot)
        && sources == old(sources) + {slot.source}
        && sourcesCreated == old(sourcesCreated) + 1
        && slot.source !in old(sources)
      ensures played ==>
        && schedule[|schedule| - 1].start >= now
        && forall i :: 0 <= i < |old(schedule)| ==> End(old(schedule)[i]) <= schedule[|schedule| - 1].start
    {
      nextStartTime := Max(nextStartTime, now);
      var buffer := Pcm.DecodeAudioData(pcm, OutputChannels);
      if buffer.None? {
        return false;
      }
      var duration := buffer.value.Length1 as real / OutputSampleRate;
      var source := sourcesCreated;
      sourcesCreated := sourcesCreated + 1;
      schedule := schedule + [Slot(source, nextStartTime, duration)];
      nextStartTime := nextStartTime + duration;
      sources := sources + {source};
      played := true;
      assert SourcesOf(schedule) == SourcesOf(old(schedule)) + {source} by {
        assert schedule[|schedule| - 1].source == source;
        assert forall i :: 0 <= i < |old(schedule)| ==> schedule[i] == old(schedule)[i];
      }
    }

    /** A source's `onended`: it leaves the set. */
    method OnSourceEnded(source: nat)
      requires Valid()
      modifies this`sources
      ensures Valid()
      ensures sources == old(sources) - {source}
    {
      sources := sources - {source};
    }

    /** Stop every scheduled or playing source, empty the set and reset the
        clock to zero; `stopped` is the set of sources `stop()` is called on. */
    method StopAllSources() returns (stopped: set<nat>)
      requires Valid()
      modifies this`sources, this`nextStartTime, this`schedule
      ensures Valid()
      ensures stopped == old(sources)
      ensures sources == {} && nextStartTime == 0.0 && schedule == []
    {
      stopped := {};
      var rest := sources;
      while rest != {}
        invariant stopped + rest == sources
        invariant stopped !! rest
        decreases rest
      {
        var s :| s in rest;
        stopped := stopped + {s};
        rest := rest - {s};
      }
      sources := {};
      nextStartTime := 0.0;
      schedule := [];
    }

    /** `stopAudioAnalysis`: the session is inactive, the stream in
        `micStreamRef` stopped and the ref cleared, every source stopped and
        the clock reset. */
    method Stop() returns (stopped: set<nat>)
      requires Valid()
      modifies this`active, this`mic, this`sources, this`nextStartTime, this`schedule
      ensures Valid()
      ensures !active && mic == ReleaseMic(old(mic))
      ensures stopped == old(sources) && sources == {} && nextStartTime == 0.0 && schedule == []
      ensures Transcript() == old(Transcript()) && sourcesCreated == old(sourcesCreated)
    {
      active := false;
      mic := ReleaseMic(mic);
      stopped := StopAllSources();
    }

    /** `toggleAudioAnalysis`: an active session is stopped; otherwise a new one
        starts with an empty transcript and buffers, and fails with the
        microphone error when the microphone is refused. */
    method Toggle(micGranted: bool) returns (stopped: set<nat>, error: Option<string>)
      requires Valid()
      modifies this`active, this`mic, this`transcriptions, this`userText, this`aiText
      modifies this`sources, this`nextStartTime, this`schedule
      ensures Valid()
      ensures sourcesCreated == old(sourcesCreated)
      ensures old(active) ==>
        && !active && mic == ReleaseMic(old(mic)) && error == None
        && stopped == old(sources) && sources == {} && nextStartTime == 0.0 && schedule == []
        && Transcript() == old(Transcript())
      ensures !old(active) ==>
        && stopped == {} && Transcript() == TranscriptState([], [], [])
        && (active <==> micGranted) && (error == None <==> micGranted)
        && (!micGranted ==> error == Some(MicrophoneError))
        && mic == (if micGranted then AcquireMic(old(mic)) else old(mic))
        && sources == old(sources) && nextStartTime == old(nextStartTime) && schedule == old(schedule)
    {
      if active {
        stopped := Stop();
        error := None;
        return;
      }
      stopped := {};
      active := true;
      transcriptions := [];
      userText, aiText := [], [];
      if micGranted {
        mic := AcquireMic(mic);
        error := None;
      } else {
        error := Some(MicrophoneError);
        active := false;
      }
    }

    /** `onerror`: the error message and a full stop. */
    method OnError() returns (stopped: set<nat>, error: string)
      requires Valid()
      modifies this`active, this`mic, this`sources, this`nextStartTime, this`schedule
      ensures Valid()
      ensures error == StreamError && !active && mic == ReleaseMic(old(mic))
      ensures stopped == old(sources) && sources == {} && nextStartTime == 0.0 && schedule == []
      ensures Transcript() == old(Transcript()) && sourcesCreated == old(sourcesCreated)
    {
      error := StreamError;
      stopped := Stop();
    }

    /** `onclose`: only the active flag drops. */
    method OnClose()
      requires Valid()
      modifies this`active
      ensures Valid() && !active
    {
      active := false;
    }

    /** `onmessage`: input transcription, output transcription, turn end, audio
        and interruption, in that order; an undecodable chunk ends the handler
        before the interruption is looked at. */
    method OnMessage(msg: ServerMessage, now: real) returns (stopped: set<nat>)
      requires Valid()
      modifies this`transcriptions, this`userText, this`aiText
      modifies this`nextStartTime, this`sources, this`sourcesCreated, this`schedule
      ensures Valid()
      ensures Transcript() == ApplyTranscript(old(Transcript()), msg)
      ensures AudioHandled(msg, now, stopped)
    {
      OnTranscriptParts(msg);
      label transcribed:
      stopped := OnAudioParts(msg, now);
      assert AudioHandled@transcribed(msg, now, stopped);
    }

    /** The transcript half of `onmessage`. */
    method OnTranscriptParts(msg: ServerMessage)
      requires Valid()
      modifies this`transcriptions, this`userText, this`aiText
      ensures Valid()
      ensures Transcript() == ApplyTranscript(old(Transcript()), msg)
    {
      ApplyTranscriptLines(Transcript(), msg);
      if msg.inputAudioTranscription.Some? {
        OnInputTranscription(msg.inputAudioTranscription.value);
      }
      if msg.outputTranscription.Some? {
        OnOutputTranscription(msg.outputTranscription.value);
      }
      if msg.turnComplete {
        OnTurnComplete();
      }
    }

    /** The playback half of `onmessage`. */
    method OnAudioParts(msg: ServerMessage, now: real) returns (stopped: set<nat>)
      requires Valid()
      modifies this`nextStartTime, this`sources, this`sourcesCreated, this`schedule
      ensures Valid()
      ensures AudioHandled(msg, now, stopped)
    {
      stopped := {};
      if msg.audio.Some? {
        var played := PlayChunk(msg.audio.value, now);
        if !played {
          return;
        }
      }
      if msg.interrupted {
        stopped := StopAllSources();
      }
    }
  }
}

/**
 * The anchor's voice: numbers each message, hands it to the speech engine, and takes and
 * gives back audio focus around the run of utterances, driven by the engine's callbacks.
 *
 * The speech engine and the audio manager are outside the model. What the voice asks of
 * them is recorded in the ghost `trace`; what the audio manager answers is an input.
 */
module Voice {
  import opened Types

  /** `TextToSpeech.SUCCESS`; every other status, `ERROR` included, only logs. */
  const TTS_SUCCESS: int := 0

  /** The utterance id `"$sessionId/$messageCount"`, kept as its two parts. */
  datatype UtteranceId = UtteranceId(session: string, count: nat)

  /** A message the voice numbered, whether or not it was spoken. */
  datatype Utterance = Utterance(id: UtteranceId, text: string)

  /** What `audioManager?.requestAudioFocus(request)` gives: one of the three statuses, or no manager. */
  datatype FocusOutcome = Granted | Delayed | Failed | NoManager

  /** An audio focus request, built in `onStart` for the utterance that started. */
  datatype FocusRequest = FocusRequest(utterance: Option<UtteranceId>)

  /** A call the voice makes on the speech engine or on the audio manager. */
  datatype Call =
    | Speak(text: string, id: UtteranceId)
    | Request(request: FocusRequest, outcome: FocusOutcome)
    | Abandon(request: FocusRequest)

  /** The focus request held after the calls `t`: the last granted or delayed one, unless given back since. */
  ghost function Held(t: seq<Call>): Option<FocusRequest>
    decreases |t|
  {
    if t == [] then None
    else match t[|t| - 1]
      case Speak(_, _) => Held(t[..|t| - 1])
      case Request(r, outcome) => if outcome == Granted || outcome == Delayed then Some(r) else None
      case Abandon(_) => None
  }

  /**
   * Focus discipline: a request is made only while nothing is held, and an abandon gives
   * back exactly the request that is held.
   */
  ghost predicate Disciplined(t: seq<Call>)
    decreases |t|
  {
    t == [] ||
    (Disciplined(t[..|t| - 1]) &&
     match t[|t| - 1]
     case Speak(_, _) => true
     case Request(_, _) => Held(t[..|t| - 1]).None?
     case Abandon(r) => Held(t[..|t| - 1]) == Some(r))
  }

  /** Number of requests that left a lease (granted or delayed). */
  ghost function Acquired(t: seq<Call>): nat
    decreases |t|
  {
    if t == [] then 0
    else
      var c := t[|t| - 1];
      Acquired(t[..|t| - 1]) + if c.Request? && (c.outcome == Granted || c.outcome == Delayed) then 1 else 0
  }

  /** Number of abandon calls. */
  ghost function Released(t: seq<Call>): nat
    decreases |t|
  {
    if t == [] then 0 else Released(t[..|t| - 1]) + (if t[|t| - 1].Abandon? then 1 else 0)
  }

  /**
   * Under the focus discipline every lease obtained is given back exactly once, except the
   * one still held: acquisitions and releases differ by at most one.
   */
  lemma {:induction false} LeaseBalance(t: seq<Call>)
    requires Disciplined(t)
    ensures Acquired(t) == Released(t) + (if Held(t).Some? then 1 else 0)
    decreases |t|
  {
    if t != [] {
      LeaseBalance(t[..|t| - 1]);
    }
  }

  /** The utterances handed to `speak`, in order. */
  ghost function Spoken(t: seq<Call>): seq<Utterance>
    decreases |t|
  {
    if t == [] then []
    else
      var c := t[|t| - 1];
      Spoken(t[..|t| - 1]) + if c.Speak? then [Utterance(c.id, c.text)] else []
  }

  /** Utterance numbers strictly increase along `s`. */
  ghost predicate Increasing(s: seq<Utterance>) {
    forall i, j :: 0 <= i < j < |s| ==> s[i].id.count < s[j].id.count
  }

  /** The id of the last utterance in `s`; `None` stands for the initial `""`. */
  ghost function LastId(s: seq<Utterance>): Option<UtteranceId> {
    if s == [] then None else Some(s[|s| - 1].id)
  }

  /** The `i`-th message numbered in session `session` carries the number `i + 1`. */
  ghost predicate Numbered(queued: seq<Utterance>, session: string) {
    forall i :: 0 <= i < |queued| ==> queued[i].id == UtteranceId(session, i + 1)
  }

  /** The utterances spoken are messages that were numbered, spoken in increasing order. */
  ghost predicate SpokenFrom(spoken: seq<Utterance>, queued: seq<Utterance>) {
    Increasing(spoken) && forall u :: u in spoken ==> u in queued
  }

  /** Numbering the next message keeps the numbering. */
  lemma NumberedAppend(queued: seq<Utterance>, session: string, text: string)
    requires Numbered(queued, session)
    ensures Numbered(queued + [Utterance(UtteranceId(session, |queued| + 1), text)], session)
  {
  }

  /**
   * The next message carries a number above every message numbered so far, so it can be
   * spoken after whatever was spoken before; and numbering it without speaking it changes
   * nothing about what was spoken.
   */
  lemma SpokenFromAppend(spoken: seq<Utterance>, queued: seq<Utterance>, session: string, u: Utterance)
    requires SpokenFrom(spoken, queued) && Numbered(queued, session)
    requires u.id == UtteranceId(session, |queued| + 1)
    ensures SpokenFrom(spoken, queued + [u])
    ensures SpokenFrom(spoken + [u], queued + [u])
  {
    forall v | v in spoken
      ensures v.id.count < u.id.count
    {
      var i :| 0 <= i < |queued| && queued[i] == v;
    }
  }

  lemma SpokenAppend(t: seq<Call>, c: Call)
    ensures Spoken(t + [c]) == Spoken(t) + (if c.Speak? then [Utterance(c.id, c.text)] else [])
    ensures Held(t + [c]) == match c
      case Speak(_, _) => Held(t)
      case Request(r, outcome) => if outcome == Granted || outcome == Delayed then Some(r) else None
      case Abandon(_) => None
    ensures Disciplined(t + [c]) == (Disciplined(t) && match c
      case Speak(_, _) => true
      case Request(_, _) => Held(t).None?
      case Abandon(r) => Held(t) == Some(r))
  {
    assert (t + [c])[..|t|] == t;
  }

  /**
   * The voice's invariant, on the values of its fields: the counter counts the numbered
   * messages, each numbered in turn; the calls keep the focus discipline and the held
   * request is the one the calls leave held; what was spoken was numbered, in increasing
   * order; and the remembered id is that of the last utterance spoken.
   */
  ghost predicate Consistent(session: string, count: nat, queued: seq<Utterance>, trace: seq<Call>,
                             focus: Option<FocusRequest>, last: Option<UtteranceId>) {
    && |queued| == count
    && Numbered(queued, session)
    && Disciplined(trace)
    && focus == Held(trace)
    && SpokenFrom(Spoken(trace), queued)
    && last == LastId(Spoken(trace))
  }

  /** Numbering a message without speaking it keeps the invariant. */
  lemma NumberKeepsConsistent(session: string, count: nat, queued: seq<Utterance>, trace: seq<Call>,
                              focus: Option<FocusRequest>, last: Option<UtteranceId>, message: string)
    requires Consistent(session, count, queued, trace, focus, last)
    ensures Consistent(session, count + 1, queued + [Utterance(UtteranceId(session, count + 1), message)],
                       trace, focus, last)
  {
    var u := Utterance(UtteranceId(session, count + 1), message);
    NumberedAppend(queued, session, message);
    SpokenFromAppend(Spoken(trace), queued, session, u);
  }

  /** Numbering a message and speaking it under its new id keeps the invariant. */
  lemma SpeakKeepsConsistent(session: string, count: nat, queued: seq<Utterance>, trace: seq<Call>,
                             focus: Option<FocusRequest>, last: Option<UtteranceId>, message: string)
    requires Consistent(session, count, queued, trace, focus, last)
    ensures var id := UtteranceId(session, count + 1);
      Consistent(session, count + 1, queued + [Utterance(id, message)],
                 trace + [Speak(message, id)], focus, Some(id))
  {
    var id := UtteranceId(session, count + 1);
    var u := Utterance(id, message);
    NumberedAppend(queued, session, message);
    SpokenFromAppend(Spoken(trace), queued, session, u);
    SpokenAppend(trace, Speak(message, id));
    assert Spoken(trace + [Speak(message, id)]) == Spoken(trace) + [u];
  }

  /** A focus request made while nothing is held keeps the invariant, whatever its outcome. */
  lemma RequestKeepsConsistent(session: string, count: nat, queued: seq<Utterance>, trace: seq<Call>,
                               last: Option<UtteranceId>, request: FocusRequest, outcome: FocusOutcome)
    requires Consistent(session, count, queued, trace, None, last)
    ensures Consistent(session, count, queued, trace + [Request(request, outcome)],
                       if outcome == Granted || outcome == Delayed then Some(request) else None, last)
  {
    SpokenAppend(trace, Request(request, outcome));
  }

  /** Giving back the held request keeps the invariant. */
  lemma AbandonKeepsConsistent(session: string, count: nat, queued: seq<Utterance>, trace: seq<Call>,
                               request: FocusRequest, last: Option<UtteranceId>)
    requires Consistent(session, count, queued, trace, Some(request), last)
    ensures Consistent(session, count, queued, trace + [Abandon(request)], None, last)
  {
    SpokenAppend(trace, Abandon(request));
  }

  class AnchorVoice {
    /** `UUID.randomUUID().toString()`, drawn once: a parameter of the constructor. */
    const sessionId: string
    var messageCount: nat
    var isTtsready: bool
    /** `None` stands for the initial `""`. */
    var lastUtteranceId: Option<UtteranceId>
    var audioFocusRequest: Option<FocusRequest>

    /** Every message numbered so far, in order. */
    ghost var queued: seq<Utterance>
    /** Every call made on the speech engine and the audio manager, in order. */
    ghost var trace: seq<Call>

    ghost predicate Valid()
      reads this
    {
      Consistent(sessionId, messageCount, queued, trace, audioFocusRequest, lastUtteranceId)
    }

    constructor(sessionId: string)
      ensures Valid()
      ensures this.sessionId == sessionId && messageCount == 0 && !isTtsready
      ensures lastUtteranceId == None && audioFocusRequest == None
      ensures queued == [] && trace == []
    {
      this.sessionId := sessionId;
      messageCount := 0;
      isTtsready := false;
      lastUtteranceId := None;
      audioFocusRequest := None;
      queued := [];
      trace := [];
    }

    /**
     * The effect of `queueMessage(message)`: the counter moves on by one and names the
     * utterance; when the engine is ready the message is spoken under that id and the id
     * is remembered, otherwise only the counter moved.
     */
    twostate predicate Enqueued(message: string)
      reads this
    {
      var id := UtteranceId(sessionId, old(messageCount) + 1);
      && messageCount == old(messageCount) + 1
      && queued == old(queued) + [Utterance(id, message)]
      && isTtsready == old(isTtsready)
      && audioFocusRequest == old(audioFocusRequest)
      && (if old(isTtsready)
          then trace == old(trace) + [Speak(message, id)] && lastUtteranceId == Some(id)
          else trace == old(trace) && lastUtteranceId == old(lastUtteranceId))
    }

    method QueueMessage(message: string)
      requires Valid()
      modifies this
      ensures Valid()
      ensures Enqueued(message)
    {
      if isTtsready {
        SpeakKeepsConsistent(sessionId, messageCount, queued, trace, audioFocusRequest, lastUtteranceId, message);
      } else {
        NumberKeepsConsistent(sessionId, messageCount, queued, trace, audioFocusRequest, lastUtteranceId, message);
      }
      messageCount := messageCount + 1;
      var utteranceId := UtteranceId(sessionId, messageCount);
      queued := queued + [Utterance(utteranceId, message)];
      if isTtsready {
        trace := trace + [Speak(message, utteranceId)];
        lastUtteranceId := Some(utteranceId);
      }
    }

    /** `onStart(utteranceId)`: ask for audio focus unless a request is already held. */
    method OnStart(utteranceId: Option<UtteranceId>, outcome: FocusOutcome)
      requires Valid()
      modifies this
      ensures Valid()
      ensures old(audioFocusRequest).Some? || outcome == NoManager ==> unchanged(this)
      ensures old(audioFocusRequest).None? && outcome != NoManager ==>
        && trace == old(trace) + [Request(FocusRequest(utteranceId), outcome)]
        && audioFocusRequest == (if outcome == Failed then None else Some(FocusRequest(utteranceId)))
        && messageCount == old(messageCount) && queued == old(queued)
        && isTtsready == old(isTtsready) && lastUtteranceId == old(lastUtteranceId)
    {
      if audioFocusRequest.Some? {
        return;
      }
      var request := FocusRequest(utteranceId);
      if outcome != NoManager {
        RequestKeepsConsistent(sessionId, messageCount, queued, trace, lastUtteranceId, request, outcome);
        trace := trace + [Request(request, outcome)];
        match outcome {
          case Granted => audioFocusRequest := Some(request);
          case Delayed => audioFocusRequest := Some(request);
          case Failed => audioFocusRequest := None;
        }
      }
    }

    /**
     * `onDone(utteranceId)`: give the focus back when the utterance that finished is the
     * last one spoken and a request is held; otherwise nothing happens.
     */
    method OnDone(utteranceId: Option<UtteranceId>)
      requires Valid()
      modifies this
      ensures Valid()
      ensures if utteranceId.Some? && utteranceId == old(lastUtteranceId) && old(audioFocusRequest).Some?
        then
          && trace == old(trace) + [Abandon(old(audioFocusRequest).value)]
          && audioFocusRequest == None
          && messageCount == old(messageCount) && queued == old(queued)
          && isTtsready == old(isTtsready) && lastUtteranceId == old(lastUtteranceId)
        else unchanged(this)
    {
      var previousRequest := audioFocusRequest;
      if utteranceId.Some? && utteranceId == lastUtteranceId && previousRequest.Some? {
        AbandonKeepsConsistent(sessionId, messageCount, queued, trace, previousRequest.value, lastUtteranceId);
        trace := trace + [Abandon(previousRequest.value)];
        audioFocusRequest := None;
      }
    }

    /** `onError(utteranceId, errorCode)`: logs, then defers to the one-argument overload. */
    method OnErrorWithCode(utteranceId: Option<UtteranceId>, errorCode: int)
      requires Valid()
      ensures Valid() && unchanged(this)
    {
      OnError(utteranceId);
    }

    /** `onError(utteranceId)`: logs only. */
    method OnError(utteranceId: Option<UtteranceId>)
      requires Valid()
      ensures Valid() && unchanged(this)
    {
    }

    /** `onInit(status)`: the engine is ready once it reports success; any other status changes nothing. */
    method OnInit(status: int)
      requires Valid()
      modifies this
      ensures Valid()
      ensures status == TTS_SUCCESS ==>
        && isTtsready
        && messageCount == old(messageCount) && queued == old(queued) && trace == old(trace)
        && lastUtteranceId == old(lastUtteranceId) && audioFocusRequest == old(audioFocusRequest)
      ensures status != TTS_SUCCESS ==> unchanged(this)
    {
      if status == TTS_SUCCESS {
        isTtsready := true;
      }
    }
  }

  /** Ids the voice hands out are strictly increasing, so none repeats. */
  lemma QueuedIdsIncrease(v: AnchorVoice)
    requires v.Valid()
    ensures forall i, j :: 0 <= i < j < |v.queued| ==> v.queued[i].id.count < v.queued[j].id.count
  {
    assert Numbered(v.queued, v.sessionId);
    assert forall i :: 0 <= i < |v.queued| ==> v.queued[i].id.count == i + 1;
  }

  /** A ready voice that has spoken three messages, numbered 1, 2 and 3, and holds no focus. */
  method SpeakThree(sessionId: string, m1: string, m2: string, m3: string) returns (v: AnchorVoice)
    ensures fresh(v) && v.Valid() && v.sessionId == sessionId
    ensures var u1, u2, u3 := UtteranceId(sessionId, 1), UtteranceId(sessionId, 2), UtteranceId(sessionId, 3);
      && v.trace == [Speak(m1, u1), Speak(m2, u2), Speak(m3, u3)]
      && v.lastUtteranceId == Some(u3) && v.audioFocusRequest == None
  {
    v := new AnchorVoice(sessionId);
    v.OnInit(TTS_SUCCESS);
    assert v.isTtsready && v.messageCount == 0 && v.trace == [];
    v.QueueMessage(m1);
    assert v.isTtsready && v.messageCount == 1 && v.trace == [Speak(m1, UtteranceId(sessionId, 1))];
    v.QueueMessage(m2);
    assert v.isTtsready && v.messageCount == 2
      && v.trace == [Speak(m1, UtteranceId(sessionId, 1)), Speak(m2, UtteranceId(sessionId, 2))];
    v.QueueMessage(m3);
  }

  /**
   * Three messages are queued, then the engine reports start U1, done U1, start U2,
   * start U3, done U3, done U2. Focus is requested once, at start U1, and given back
   * once, at done U3 (the last queued utterance); the other four callbacks call nothing.
   * `after[k]` is the trace after the k-th callback.
   */
  method FocusAcrossThreeUtterances(
    sessionId: string, m1: string, m2: string, m3: string,
    first: FocusOutcome, second: FocusOutcome, third: FocusOutcome)
    returns (v: AnchorVoice, ghost after: seq<seq<Call>>)
    requires first == Granted || first == Delayed
    ensures fresh(v) && v.Valid()
    ensures
      var u1, u2, u3 := UtteranceId(sessionId, 1), UtteranceId(sessionId, 2), UtteranceId(sessionId, 3);
      var requested := [Speak(m1, u1), Speak(m2, u2), Speak(m3, u3), Request(FocusRequest(Some(u1)), first)];
      var released := requested + [Abandon(FocusRequest(Some(u1)))];
      after == [requested, requested, requested, requested, released, released] && v.trace == released
  {
    var u1, u2, u3 := UtteranceId(sessionId, 1), UtteranceId(sessionId, 2), UtteranceId(sessionId, 3);
    v := SpeakThree(sessionId, m1, m2, m3);
    v.OnStart(Some(u1), first);
    ghost var t0 := v.trace;
    assert t0 == [Speak(m1, u1), Speak(m2, u2), Speak(m3, u3), Request(FocusRequest(Some(u1)), first)];
    assert v.audioFocusRequest == Some(FocusRequest(Some(u1))) && v.lastUtteranceId == Some(u3);
    v.OnDone(Some(u1));
    ghost var t1 := v.trace;
    assert t1 == t0 && v.audioFocusRequest.Some? && v.lastUtteranceId == Some(u3);
    v.OnStart(Some(u2), second);
    ghost var t2 := v.trace;
    assert t2 == t1 && v.audioFocusRequest.Some? && v.lastUtteranceId == Some(u3);
    v.OnStart(Some(u3), third);
    ghost var t3 := v.trace;
    assert t3 == t2 && v.audioFocusRequest == Some(FocusRequest(Some(u1))) && v.lastUtteranceId == Some(u3);
    v.OnDone(Some(u3));
    ghost var t4 := v.trace;
    assert t4 == t3 + [Abandon(FocusRequest(Some(u1)))] && v.audioFocusRequest == None;
    v.OnDone(Some(u2));
    ghost var t5 := v.trace;
    assert t5 == t4;
    after := [t0, t1, t2, t3, t4, t5];
  }
}

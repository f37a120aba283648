/** The focus tracker's per-frame step: pose smoothing and classification, emotion scoring,
    the two bounded history buffers, the emotion stabilizer, the coaching cadence, the periodic
    session analysis and the object-detection phone limiter. The WebSocket, speech, toast and
    HTTP sinks are an append-only output log; time, randomness, model inference results and
    the analysis reply are inputs of each frame. */
module Tracker {
  import opened Wrappers
  import Seqs
  import Text
  import P = Pose
  import E = Expression
  import S = Stabilizer
  import C = Coaching
  import A = AnalysisService

  const FocusHistoryCapacity: nat := 300
  const EmotionBufferCapacity: nat := 20
  /** Minimum time between two phone warnings, whichever path raises them (ms). */
  const PhoneWarningInterval: int := 15000
  /** Minimum time since the last coaching message before server advice is spoken (ms). */
  const DoubleTalkInterval: int := 10000
  const AnalysisInterval: int := 10000
  const ObjectDetectionInterval: int := 2000
  const MillisPerMinute: int := 60000

  const PhoneWarningText: string := "Phone detected. Please focus on your screen."

  /** The three landmarks the tracker reads (nose, left and right eye outer corners) and
      the blendshape list, which the face model may omit. */
  datatype Face = Face(nose: P.Point, leftEye: P.Point, rightEye: P.Point, blendshapes: Option<seq<E.Blendshape>>)

  predicate WellFormedFace(f: Face) { f.rightEye.x != f.leftEye.x }

  /** One object detection, by the name of its top category. */
  datatype Detection = Detection(topLabel: string)

  /** What the analysis request brought back: nothing (the request failed), or a body
      whose advice may be absent. */
  datatype AnalysisReply = Failed | Answered(advice: Option<A.Advice>)

  /** The inputs of one frame: whether the face model is loaded, the face it found, whether
      the telemetry socket is open, the focus status the frame callback captured, the random
      draws of the coaching step, the analysis reply (read only when the analysis runs) and
      the object detector's results (`None` while the detector is not loaded). */
  datatype Frame = Frame(
    ready: bool,
    face: Option<Face>,
    wsOpen: bool,
    capturedStatus: P.Status,
    draws: C.Draws,
    reply: AnalysisReply,
    detections: Option<seq<Detection>>)

  predicate WellFormed(f: Frame) {
    C.ValidDraws(f.draws) && (f.face.Some? ==> WellFormedFace(f.face.value))
  }

  /** What is spoken: the pose path's phone warning, the object warning naming the object,
      a coaching message, or the description of server advice. */
  datatype Line =
    | PhoneLine
    | ObjectLine(objectName: string)
    | CoachLine(coach: C.Coach)
    | AdviceLine(description: string)

  predicate ValidLine(l: Line) { l.CoachLine? ==> C.ValidCoach(l.coach) }

  /** The words spoken (and shown in the "Study Coach" toast) for a line. */
  function Utterance(l: Line): (s: string)
    requires ValidLine(l)
    ensures l.AdviceLine? ==> s == l.description
    ensures l.ObjectLine? ==> Text.Contains(s, l.objectName)
  {
    match l
    case PhoneLine => PhoneWarningText
    case ObjectLine(name) =>
      assert Text.OccursAt(ObjectWarningText(name), name, 8);
      ObjectWarningText(name)
    case CoachLine(m) => C.Message(m.category, m.index)
    case AdviceLine(d) => d
  }

  /** Who asked for a spoken message; the two phone paths share one channel. */
  datatype Channel = PhoneWarning | Coaching | AdviceVoice

  function ChannelOf(l: Line): Channel {
    match l
    case PhoneLine => PhoneWarning
    case ObjectLine(_) => PhoneWarning
    case CoachLine(_) => Coaching
    case AdviceLine(_) => AdviceVoice
  }

  datatype Output =
    | Send(telemetry: P.Telemetry)                            // one WebSocket message
    | Say(at: int, line: Line)                                // speech and its toast
    | Request(focusScore: real, durationMinutes: int)         // POST to the analysis endpoint
    | Notify(title: string, description: string, destructive: bool)  // the advice toast

  // ----- Pose and expression of one frame -----

  /** The smoothed pose, the branch taken (none without a face) and the frame's emotion. */
  datatype Perception = Perception(yaw: real, pitch: real, branch: Option<P.PoseBranch>, emotion: E.Emotion)

  function Perceive(face: Option<Face>, prevYaw: real, prevPitch: real): Perception
    requires face.Some? ==> WellFormedFace(face.value)
  {
    match face
    case None => Perception(prevYaw, prevPitch, None, E.Searching)
    case Some(f) =>
      var yaw := P.Smooth(P.RawYaw(f.nose, f.leftEye, f.rightEye), prevYaw);
      var pitch := P.Smooth(P.RawPitch(f.nose), prevPitch);
      Perception(yaw, pitch, Some(P.Branch(yaw, pitch)), E.FaceEmotion(f.blendshapes, pitch))
  }

  /** Without a face the smoothed pose stays put and the emotion reads "Searching...";
      with one, each smoothed angle lies between its raw value and its previous value, the
      branch is the one the thresholds select, and the emotion is "Neutral" exactly when the
      model gave no blendshapes. */
  lemma PerceptionFacts(face: Option<Face>, prevYaw: real, prevPitch: real)
    requires face.Some? ==> WellFormedFace(face.value)
    ensures var p := Perceive(face, prevYaw, prevPitch);
      && (face.None? <==> p.branch.None?)
      && (face.None? ==> p.yaw == prevYaw && p.pitch == prevPitch && p.emotion == E.Searching)
      && (face.Some? ==>
            var f := face.value;
            var rawYaw := P.RawYaw(f.nose, f.leftEye, f.rightEye);
            var rawPitch := P.RawPitch(f.nose);
            && P.Min(rawYaw, prevYaw) <= p.yaw <= P.Max(rawYaw, prevYaw)
            && P.Min(rawPitch, prevPitch) <= p.pitch <= P.Max(rawPitch, prevPitch)
            && p.branch == Some(P.Branch(p.yaw, p.pitch))
            && p.emotion != E.Searching
            && (p.emotion == E.Neutral <==> f.blendshapes.None?))
  {
  }

  /** A frame counts as focused exactly when the centred branch ran. */
  predicate IsFocusedFrame(p: Perception) { p.branch == Some(P.Centred) }

  function StatusAfter(p: Perception): (s: P.Status)
    ensures s != P.Loading
    ensures s == P.Focused <==> IsFocusedFrame(p)
  {
    match p.branch
    case None => P.Distracted
    case Some(b) => P.StatusOf(b)
  }

  /** The phone flag after the pose step: set by looking down, cleared by the other two
      branches, left alone without a face. */
  function PhoneAfterPose(p: Perception, phone: bool): (r: bool)
    ensures p.branch.None? ==> r == phone
    ensures p.branch.Some? ==> (r <==> p.branch == Some(P.LookingDown))
  {
    match p.branch
    case None => phone
    case Some(b) => b == P.LookingDown
  }

  /** The pose path warns when looking down and the shared limiter is open. */
  predicate PoseWarns(p: Perception, now: int, lastPhoneWarning: int) {
    p.branch == Some(P.LookingDown) && now - lastPhoneWarning > PhoneWarningInterval
  }

  function Telemetry(p: Perception): (t: P.Telemetry)
    ensures t == P.Away <==> p.branch.None?
  {
    match p.branch
    case None => P.Away
    case Some(b) => P.TelemetryOf(b)
  }

  function PoseOutputs(p: Perception, wsOpen: bool, now: int, lastPhoneWarning: int): seq<Output> {
    (if wsOpen then [Send(Telemetry(p))] else [])
    + (if PoseWarns(p, now, lastPhoneWarning) then [Say(now, PhoneLine)] else [])
  }

  // ----- Coaching -----

  /** The coaching message spoken this frame, if the 50-second slot is open and one is chosen. */
  function CoachSpeaks(dominant: E.Emotion, captured: P.Status, draws: C.Draws, now: int, lastAdviceTime: int): (m: Option<C.Coach>)
    requires C.ValidDraws(draws)
    ensures m.Some? ==> now - lastAdviceTime > C.CoachingInterval
    ensures m.Some? ==> C.ValidCoach(m.value)
    ensures now - lastAdviceTime > C.CoachingInterval && C.CoachCategory(dominant, captured).Some? ==> m.Some?
  {
    if now - lastAdviceTime > C.CoachingInterval then C.CoachMessage(dominant, captured, draws) else None
  }

  function CoachOutputs(m: Option<C.Coach>, now: int): seq<Output> {
    if m.Some? then [Say(now, CoachLine(m.value))] else []
  }

  // ----- Session analysis -----

  function CountTrue(h: seq<bool>): (n: nat)
    ensures n <= |h|
    ensures n == 0 <==> forall i :: 0 <= i < |h| ==> !h[i]
    ensures n == |h| <==> forall i :: 0 <= i < |h| ==> h[i]
  {
    if h == [] then 0
    else
      assert forall i :: 0 < i < |h| ==> h[i] == h[1..][i - 1];
      (if h[0] then 1 else 0) + CountTrue(h[1..])
  }

  /** The share of focused frames in the history, 0 for an empty history. */
  function AnalysisScore(history: seq<bool>): (r: real)
    ensures 0.0 <= r <= 1.0
    ensures history == [] ==> r == 0.0
  {
    if |history| > 0 then Share(CountTrue(history), |history|) else 0.0
  }

  /** `n` out of `d`, as a fraction. */
  function Share(n: nat, d: nat): (r: real)
    requires 0 < d && n <= d
    ensures 0.0 <= r <= 1.0
    ensures r * (d as real) == n as real
    ensures r == 1.0 <==> n == d
    ensures r == 0.0 <==> n == 0
  {
    var x, y := n as real, d as real;
    var q := x / y;
    assert q * y == x;
    assert q * y <= 1.0 * y;
    assert q == 1.0 ==> x == y;
    assert q == 0.0 ==> x == 0.0;
    q
  }

  /** The score is the share of focused frames: 1 exactly when every frame was focused and
      0 exactly when none was. */
  lemma AnalysisScoreIsShare(history: seq<bool>)
    ensures history != [] ==> AnalysisScore(history) == Share(CountTrue(history), |history|)
    ensures history != [] ==> (AnalysisScore(history) == 1.0 <==> forall i :: 0 <= i < |history| ==> history[i])
    ensures AnalysisScore(history) == 0.0 <==> forall i :: 0 <= i < |history| ==> !history[i]
  {
    if history != [] {
      var n, d := CountTrue(history), |history|;
      assert AnalysisScore(history) == Share(n, d);
    }
  }

  /** Whole minutes since the session started (floor division). */
  function DurationMinutes(now: int, sessionStart: int): (m: int)
    ensures m * MillisPerMinute <= now - sessionStart < (m + 1) * MillisPerMinute
  {
    (now - sessionStart) / MillisPerMinute
  }

  function AnalysisOutputs(history: seq<bool>, reply: AnalysisReply, now: int, sessionStart: int, lastAdviceTime: int): (r: seq<Output>)
    ensures |r| >= 1 && r[0] == Request(AnalysisScore(history), DurationMinutes(now, sessionStart))
    ensures |r| == 1 <==> !(reply.Answered? && reply.advice.Some?)
    ensures forall i :: 1 <= i < |r| && r[i].Say? ==>
              reply.Answered? && reply.advice.Some? && now - lastAdviceTime > DoubleTalkInterval
              && r[i] == Say(now, AdviceLine(reply.advice.value.description))
  {
    [Request(AnalysisScore(history), DurationMinutes(now, sessionStart))]
    + match reply
      case Answered(Some(a)) =>
        [Notify(a.title, a.description, a.kind == A.Warning)]
        + (if now - lastAdviceTime > DoubleTalkInterval then [Say(now, AdviceLine(a.description))] else [])
      case _ => []
  }

  // ----- Object detection -----

  /** A phone or a remote control, whatever the case of its label. */
  predicate IsDistracting(d: Detection) {
    Text.Lower(d.topLabel) == "cell phone" || Text.Lower(d.topLabel) == "remote"
  }

  /** `filter`: the distracting detections, in detection order. */
  function Distracting(ds: seq<Detection>): seq<Detection> {
    if ds == [] then []
    else if IsDistracting(ds[0]) then [ds[0]] + Distracting(ds[1..])
    else Distracting(ds[1..])
  }

  /** The filter keeps exactly the distracting detections, and the first one it keeps is the
      first distracting detection. */
  lemma {:induction false} DistractingFilter(ds: seq<Detection>)
    ensures forall d :: d in Distracting(ds) <==> d in ds && IsDistracting(d)
    ensures Distracting(ds) != [] ==>
              exists i :: 0 <= i < |ds| && ds[i] == Distracting(ds)[0] && forall j :: 0 <= j < i ==> !IsDistracting(ds[j])
  {
    if ds != [] {
      DistractingFilter(ds[1..]);
      assert ds == [ds[0]] + ds[1..];
      if !IsDistracting(ds[0]) && Distracting(ds) != [] {
        var rest := ds[1..];
        var i :| 0 <= i < |rest| && rest[i] == Distracting(rest)[0] && forall j :: 0 <= j < i ==> !IsDistracting(rest[j]);
        assert ds[i + 1] == Distracting(ds)[0];
        assert forall j :: 0 < j <= i ==> ds[j] == rest[j - 1];
      } else if IsDistracting(ds[0]) {
        assert ds[0] == Distracting(ds)[0];
      }
    }
  }

  function ObjectWarningText(objectName: string): string {
    "I see a " + objectName + ". Please put it away."
  }

  predicate ObjectSeen(detections: Option<seq<Detection>>) {
    detections.Some? && Distracting(detections.value) != []
  }

  /** Object detection warns when a distracting object is seen and the shared limiter is open. */
  predicate ObjectWarns(detections: Option<seq<Detection>>, now: int, lastPhoneWarning: int) {
    ObjectSeen(detections) && now - lastPhoneWarning > PhoneWarningInterval
  }

  function ObjectOutputs(detections: Option<seq<Detection>>, now: int, lastPhoneWarning: int): (r: seq<Output>)
    ensures |r| <= 1
    ensures r != [] <==> ObjectWarns(detections, now, lastPhoneWarning)
    ensures r != [] ==> r[0].Say? && r[0].at == now && r[0].line.ObjectLine?
                        && exists d :: d in detections.value && IsDistracting(d) && r[0].line.objectName == d.topLabel
  {
    if ObjectWarns(detections, now, lastPhoneWarning) then
      DistractingFilter(detections.value);
      assert Distracting(detections.value)[0] in Distracting(detections.value);
      [Say(now, ObjectLine(Distracting(detections.value)[0].topLabel))]
    else []
  }

  /** Within one frame at most one phone warning is spoken: a pose warning closes the
      shared limiter for the object-detection path. */
  lemma OnePhoneWarningPerFrame(p: Perception, detections: Option<seq<Detection>>, now: int, lastPhoneWarning: int)
    ensures var after := if PoseWarns(p, now, lastPhoneWarning) then now else lastPhoneWarning;
            !(PoseWarns(p, now, lastPhoneWarning) && ObjectWarns(detections, now, after))
  {
  }

  // ----- The rate limits, as invariants of the output log -----

  predicate IsSay(o: Output, ch: Channel) { o.Say? && ChannelOf(o.line) == ch }

  /** The time of the last message spoken on this channel. */
  function LastSaid(log: seq<Output>, ch: Channel): Option<int>
    decreases |log|
  {
    if log == [] then None
    else if IsSay(log[|log| - 1], ch) then Some(log[|log| - 1].at)
    else LastSaid(log[..|log| - 1], ch)
  }

  /** `t` is more than `gap` after `last`, or nothing was said before. */
  predicate After(t: int, last: Option<int>, gap: int) { last.None? || t - last.value > gap }

  /** `last` is not after `t`. */
  predicate NotAfter(last: Option<int>, t: int) { last.None? || last.value <= t }

  /** The gate a spoken message passes, against what was spoken before it: a coaching
      message more than 50 s after the previous one, a phone warning more than 15 s after
      the previous one, spoken advice more than 10 s after the last coaching message. */
  predicate Gated(o: Output, before: seq<Output>) {
    match o
    case Say(at, l) =>
      var ch := ChannelOf(l);
      && (ch == Coaching ==> After(at, LastSaid(before, Coaching), C.CoachingInterval))
      && (ch == PhoneWarning ==> After(at, LastSaid(before, PhoneWarning), PhoneWarningInterval))
      && (ch == AdviceVoice ==> After(at, LastSaid(before, Coaching), DoubleTalkInterval))
    case _ => true
  }

  /** Every spoken message of the log passed its gate. */
  predicate RateLimited(log: seq<Output>)
    decreases |log|
  {
    log == [] || (RateLimited(log[..|log| - 1]) && Gated(log[|log| - 1], log[..|log| - 1]))
  }

  /** Any two messages of this channel are more than `gap` apart. */
  ghost predicate Spaced(log: seq<Output>, ch: Channel, gap: int) {
    forall i, j :: 0 <= i < j < |log| && IsSay(log[i], ch) && IsSay(log[j], ch) ==> log[j].at - log[i].at > gap
  }

  /** Spoken advice always comes more than 10 s after every earlier coaching message. */
  ghost predicate AdviceAfterCoaching(log: seq<Output>) {
    forall i, j :: 0 <= i < j < |log| && IsSay(log[i], Coaching) && IsSay(log[j], AdviceVoice) ==>
      log[j].at - log[i].at > DoubleTalkInterval
  }

  /** In a rate-limited log the coaching and phone-warning times increase, so the last one
      spoken is the latest of its channel. */
  lemma {:induction false} LastSaidIsLatest(log: seq<Output>, ch: Channel)
    requires RateLimited(log) && (ch == Coaching || ch == PhoneWarning)
    ensures forall i :: 0 <= i < |log| && IsSay(log[i], ch) ==>
              LastSaid(log, ch).Some? && log[i].at <= LastSaid(log, ch).value
  {
    if log != [] {
      var n := |log| - 1;
      var prefix := log[..n];
      LastSaidIsLatest(prefix, ch);
      forall i | 0 <= i < |log| && IsSay(log[i], ch)
        ensures LastSaid(log, ch).Some? && log[i].at <= LastSaid(log, ch).value
      {
        if i < n {
          assert prefix[i] == log[i];
        }
      }
    }
  }

  /** The per-message gates give the pairwise rate limits over the whole log. */
  lemma {:induction false} RateLimitedSpacing(log: seq<Output>)
    requires RateLimited(log)
    ensures Spaced(log, Coaching, C.CoachingInterval)
    ensures Spaced(log, PhoneWarning, PhoneWarningInterval)
    ensures AdviceAfterCoaching(log)
  {
    if log != [] {
      var n := |log| - 1;
      var prefix := log[..n];
      RateLimitedSpacing(prefix);
      LastSaidIsLatest(prefix, Coaching);
      LastSaidIsLatest(prefix, PhoneWarning);
      forall i, j | 0 <= i < j < |log|
        ensures IsSay(log[i], Coaching) && IsSay(log[j], Coaching) ==> log[j].at - log[i].at > C.CoachingInterval
        ensures IsSay(log[i], PhoneWarning) && IsSay(log[j], PhoneWarning) ==> log[j].at - log[i].at > PhoneWarningInterval
        ensures IsSay(log[i], Coaching) && IsSay(log[j], AdviceVoice) ==> log[j].at - log[i].at > DoubleTalkInterval
      {
        assert prefix[i] == log[i];
        if j < n {
          assert prefix[j] == log[j];
        }
      }
    }
  }

  /** The limiter fields never lag behind the log. */
  predicate Bounded(log: seq<Output>, lastAdviceTime: int, lastPhoneWarning: int) {
    NotAfter(LastSaid(log, Coaching), lastAdviceTime) && NotAfter(LastSaid(log, PhoneWarning), lastPhoneWarning)
  }

  /** The gate the tracker itself checks before speaking, against its limiter fields. */
  predicate Permitted(o: Output, lastAdviceTime: int, lastPhoneWarning: int) {
    match o
    case Say(at, l) =>
      var ch := ChannelOf(l);
      && (ch == Coaching ==> at - lastAdviceTime > C.CoachingInterval)
      && (ch == PhoneWarning ==> at - lastPhoneWarning > PhoneWarningInterval)
      && (ch == AdviceVoice ==> at - lastAdviceTime > DoubleTalkInterval)
    case _ => true
  }

  function AdviceTimeAfter(o: Output, lastAdviceTime: int): int {
    if IsSay(o, Coaching) then o.at else lastAdviceTime
  }

  function PhoneTimeAfter(o: Output, lastPhoneWarning: int): int {
    if IsSay(o, PhoneWarning) then o.at else lastPhoneWarning
  }

  /** Checking the limiter fields is enough: an output that passes them, appended with its
      limiter moved onto its time, keeps the log rate-limited and the fields ahead of it. */
  lemma LogInvariantStep(log: seq<Output>, lastAdviceTime: int, lastPhoneWarning: int, o: Output)
    requires RateLimited(log) && Bounded(log, lastAdviceTime, lastPhoneWarning)
    requires Permitted(o, lastAdviceTime, lastPhoneWarning)
    ensures RateLimited(log + [o])
    ensures Bounded(log + [o], AdviceTimeAfter(o, lastAdviceTime), PhoneTimeAfter(o, lastPhoneWarning))
  {
    assert (log + [o])[..|log|] == log;
  }

  // ----- The tracker's state and one frame as a transition -----

  /** The tracker's fields at one moment. */
  datatype State = State(
    prevYaw: real, prevPitch: real,
    focusHistory: seq<bool>, emotionBuffer: seq<E.Emotion>,
    lastAdviceTime: int, lastPhoneWarning: int, lastAnalysis: int, lastObjectDetection: int,
    sessionStart: int,
    status: P.Status, emotion: E.Emotion, phoneDetected: bool,
    log: seq<Output>)

  /** Mounted at time `start`: centred pose, empty buffers, both limiters at 0, the analysis
      and detection cadences starting now, status Loading and emotion "Neutral". */
  function Initial(start: int): State {
    State(P.InitialYaw, P.InitialPitch, [], [], 0, 0, start, start, start, P.Loading, E.Neutral, false, [])
  }

  /** The pose and emotion step of a frame. */
  function PoseStep(s: State, face: Option<Face>, wsOpen: bool, now: int): State
    requires face.Some? ==> WellFormedFace(face.value)
  {
    var p := Perceive(face, s.prevYaw, s.prevPitch);
    s.(prevYaw := p.yaw, prevPitch := p.pitch,
       status := StatusAfter(p),
       phoneDetected := PhoneAfterPose(p, s.phoneDetected),
       log := s.log + PoseOutputs(p, wsOpen, now, s.lastPhoneWarning),
       lastPhoneWarning := if PoseWarns(p, now, s.lastPhoneWarning) then now else s.lastPhoneWarning)
  }

  /** Both histories take the frame, dropping their oldest entry on overflow, and the
      displayed emotion becomes the mode of the emotion buffer. */
  function RecordStep(s: State, focused: bool, e: E.Emotion): State {
    var buffer := Seqs.Push(s.emotionBuffer, e, EmotionBufferCapacity);
    s.(focusHistory := Seqs.Push(s.focusHistory, focused, FocusHistoryCapacity),
       emotionBuffer := buffer,
       emotion := S.Mode(buffer))
  }

  /** The coaching slot, judged on the displayed emotion and the captured status. */
  function CoachStep(s: State, captured: P.Status, draws: C.Draws, now: int): State
    requires C.ValidDraws(draws)
  {
    var m := CoachSpeaks(s.emotion, captured, draws, now, s.lastAdviceTime);
    s.(log := s.log + CoachOutputs(m, now),
       lastAdviceTime := if m.Some? then now else s.lastAdviceTime)
  }

  /** The periodic analysis, at most once every 10 seconds. */
  function AnalysisStep(s: State, reply: AnalysisReply, now: int): State {
    if now - s.lastAnalysis > AnalysisInterval then
      s.(log := s.log + AnalysisOutputs(s.focusHistory, reply, now, s.sessionStart, s.lastAdviceTime),
         lastAnalysis := now)
    else s
  }

  /** The periodic object detection, at most once every 2 seconds. */
  function DetectStep(s: State, detections: Option<seq<Detection>>, now: int): State {
    if now - s.lastObjectDetection > ObjectDetectionInterval then
      s.(phoneDetected := s.phoneDetected || ObjectSeen(detections),
         log := s.log + ObjectOutputs(detections, now, s.lastPhoneWarning),
         lastPhoneWarning := if ObjectWarns(detections, now, s.lastPhoneWarning) then now else s.lastPhoneWarning,
         lastObjectDetection := now)
    else s
  }

  /** One frame: nothing before the face model is loaded, else the five steps in order. */
  function Next(s: State, frame: Frame, now: int): (r: State)
    requires WellFormed(frame)
    ensures !frame.ready ==> r == s
    ensures frame.ready ==> r.status != P.Loading
    ensures s.log <= r.log && r.sessionStart == s.sessionStart
  {
    if !frame.ready then s
    else
      var p := Perceive(frame.face, s.prevYaw, s.prevPitch);
      var s1 := PoseStep(s, frame.face, frame.wsOpen, now);
      var s2 := RecordStep(s1, IsFocusedFrame(p), p.emotion);
      var s3 := CoachStep(s2, frame.capturedStatus, frame.draws, now);
      var s4 := AnalysisStep(s3, frame.reply, now);
      DetectStep(s4, frame.detections, now)
  }

  /** What every frame keeps: both buffers within capacity, the displayed emotion the mode
      of the emotion buffer ("Neutral" before the first frame), and every spoken message of
      the log past its rate limit, with the limiter fields not behind the log. */
  predicate Inv(s: State) {
    && |s.focusHistory| <= FocusHistoryCapacity
    && |s.emotionBuffer| <= EmotionBufferCapacity
    && (s.emotionBuffer == [] ==> s.emotion == E.Neutral)
    && (s.emotionBuffer != [] ==> s.emotion == S.Mode(s.emotionBuffer))
    && RateLimited(s.log)
    && Bounded(s.log, s.lastAdviceTime, s.lastPhoneWarning)
  }

  lemma InitialInv(start: int)
    ensures Inv(Initial(start))
  {
  }

  lemma PoseStepInv(s: State, face: Option<Face>, wsOpen: bool, now: int)
    requires Inv(s) && (face.Some? ==> WellFormedFace(face.value))
    ensures Inv(PoseStep(s, face, wsOpen, now))
  {
    var p := Perceive(face, s.prevYaw, s.prevPitch);
    PoseLogInv(s.log, s.lastAdviceTime, s.lastPhoneWarning, p, wsOpen, now);
  }

  /** The pose step's telemetry and phone warning keep the log invariant. */
  lemma PoseLogInv(log: seq<Output>, lastAdviceTime: int, lastPhoneWarning: int, p: Perception, wsOpen: bool, now: int)
    requires RateLimited(log) && Bounded(log, lastAdviceTime, lastPhoneWarning)
    ensures RateLimited(log + PoseOutputs(p, wsOpen, now, lastPhoneWarning))
    ensures Bounded(log + PoseOutputs(p, wsOpen, now, lastPhoneWarning), lastAdviceTime,
                    if PoseWarns(p, now, lastPhoneWarning) then now else lastPhoneWarning)
  {
    var send := Send(Telemetry(p));
    var log1 := if wsOpen then log + [send] else log;
    if wsOpen {
      LogInvariantStep(log, lastAdviceTime, lastPhoneWarning, send);
    }
    if PoseWarns(p, now, lastPhoneWarning) {
      LogInvariantStep(log1, lastAdviceTime, lastPhoneWarning, Say(now, PhoneLine));
      assert log + PoseOutputs(p, wsOpen, now, lastPhoneWarning) == log1 + [Say(now, PhoneLine)];
    } else {
      assert log + PoseOutputs(p, wsOpen, now, lastPhoneWarning) == log1;
    }
  }

  lemma RecordStepInv(s: State, focused: bool, e: E.Emotion)
    requires Inv(s)
    ensures Inv(RecordStep(s, focused, e))
  {
    Seqs.PushIsWindow(s.focusHistory, focused, FocusHistoryCapacity);
    Seqs.PushIsWindow(s.emotionBuffer, e, EmotionBufferCapacity);
    Seqs.WindowPush(s.focusHistory, focused, FocusHistoryCapacity);
    Seqs.WindowPush(s.emotionBuffer, e, EmotionBufferCapacity);
  }

  lemma CoachStepInv(s: State, captured: P.Status, draws: C.Draws, now: int)
    requires Inv(s) && C.ValidDraws(draws)
    ensures Inv(CoachStep(s, captured, draws, now))
  {
    var m := CoachSpeaks(s.emotion, captured, draws, now, s.lastAdviceTime);
    if m.Some? {
      LogInvariantStep(s.log, s.lastAdviceTime, s.lastPhoneWarning, Say(now, CoachLine(m.value)));
    } else {
      assert s.log + CoachOutputs(m, now) == s.log;
    }
  }

  lemma AnalysisStepInv(s: State, reply: AnalysisReply, now: int)
    requires Inv(s)
    ensures Inv(AnalysisStep(s, reply, now))
  {
    if now - s.lastAnalysis > AnalysisInterval {
      AnalysisLogInv(s.log, s.lastAdviceTime, s.lastPhoneWarning, s.focusHistory, reply, now, s.sessionStart);
    }
  }

  /** The analysis request, the advice toast and the spoken advice keep the log invariant. */
  lemma AnalysisLogInv(log: seq<Output>, la: int, lp: int, history: seq<bool>, reply: AnalysisReply, now: int, sessionStart: int)
    requires RateLimited(log) && Bounded(log, la, lp)
    ensures RateLimited(log + AnalysisOutputs(history, reply, now, sessionStart, la))
    ensures Bounded(log + AnalysisOutputs(history, reply, now, sessionStart, la), la, lp)
  {
    var request := Request(AnalysisScore(history), DurationMinutes(now, sessionStart));
    LogInvariantStep(log, la, lp, request);
    var log1 := log + [request];
    if reply.Answered? && reply.advice.Some? {
      var a := reply.advice.value;
      var toast := Notify(a.title, a.description, a.kind == A.Warning);
      LogInvariantStep(log1, la, lp, toast);
      var log2 := log1 + [toast];
      if now - la > DoubleTalkInterval {
        LogInvariantStep(log2, la, lp, Say(now, AdviceLine(a.description)));
        assert log + AnalysisOutputs(history, reply, now, sessionStart, la) == log2 + [Say(now, AdviceLine(a.description))];
      } else {
        assert log + AnalysisOutputs(history, reply, now, sessionStart, la) == log2;
      }
    } else {
      assert log + AnalysisOutputs(history, reply, now, sessionStart, la) == log1;
    }
  }

  lemma DetectStepInv(s: State, detections: Option<seq<Detection>>, now: int)
    requires Inv(s)
    ensures Inv(DetectStep(s, detections, now))
  {
    if now - s.lastObjectDetection > ObjectDetectionInterval {
      if ObjectWarns(detections, now, s.lastPhoneWarning) {
        var say := Say(now, ObjectLine(Distracting(detections.value)[0].topLabel));
        LogInvariantStep(s.log, s.lastAdviceTime, s.lastPhoneWarning, say);
      } else {
        assert s.log + ObjectOutputs(detections, now, s.lastPhoneWarning) == s.log;
      }
    }
  }

  /** Every frame keeps the invariant: the buffers stay bounded, the displayed emotion stays
      the mode of its buffer, and no rate limit of the spoken channels is ever broken. */
  lemma NextInv(s: State, frame: Frame, now: int)
    requires Inv(s) && WellFormed(frame)
    ensures Inv(Next(s, frame, now))
  {
    if frame.ready {
      var p := Perceive(frame.face, s.prevYaw, s.prevPitch);
      PoseStepInv(s, frame.face, frame.wsOpen, now);
      var s1 := PoseStep(s, frame.face, frame.wsOpen, now);
      RecordStepInv(s1, IsFocusedFrame(p), p.emotion);
      var s2 := RecordStep(s1, IsFocusedFrame(p), p.emotion);
      CoachStepInv(s2, frame.capturedStatus, frame.draws, now);
      var s3 := CoachStep(s2, frame.capturedStatus, frame.draws, now);
      AnalysisStepInv(s3, frame.reply, now);
      DetectStepInv(AnalysisStep(s3, frame.reply, now), frame.detections, now);
    }
  }

  /** The displayed emotion after any frame is the stable mode of the emotion buffer: an
      entry of maximal count, the one seen first latest among ties. */
  lemma DisplayedEmotionIsStableMode(s: State, frame: Frame, now: int)
    requires Inv(s) && WellFormed(frame) && frame.ready
    ensures Next(s, frame, now).emotionBuffer != []
    ensures S.IsStableMode(Next(s, frame, now).emotionBuffer, Next(s, frame, now).emotion)
  {
    NextInv(s, frame, now);
    var p := Perceive(frame.face, s.prevYaw, s.prevPitch);
    var s1 := PoseStep(s, frame.face, frame.wsOpen, now);
    Seqs.PushIsWindow(s1.emotionBuffer, p.emotion, EmotionBufferCapacity);
    Seqs.WindowPush(s1.emotionBuffer, p.emotion, EmotionBufferCapacity);
    S.ModeIsStable(Next(s, frame, now).emotionBuffer);
  }

  // ----- The tracker -----

  class FocusSession {
    var prevYaw: real
    var prevPitch: real
    var focusHistory: seq<bool>
    var emotionBuffer: seq<E.Emotion>
    var lastAdviceTime: int
    var lastPhoneWarning: int
    var lastAnalysis: int
    var lastObjectDetection: int
    const sessionStart: int
    /** The displayed focus status, emotion and phone badge. */
    var status: P.Status
    var emotion: E.Emotion
    var phoneDetected: bool
    var log: seq<Output>

    function Snap(): State
      reads this
    {
      State(prevYaw, prevPitch, focusHistory, emotionBuffer, lastAdviceTime, lastPhoneWarning,
            lastAnalysis, lastObjectDetection, sessionStart, status, emotion, phoneDetected, log)
    }

    ghost predicate Valid()
      reads this
    {
      Inv(Snap())
    }

    /** Mounting the tracker at time `start`. */
    constructor (start: int)
      ensures Snap() == Initial(start)
      ensures Valid()
    {
      prevYaw, prevPitch := P.InitialYaw, P.InitialPitch;
      focusHistory, emotionBuffer := [], [];
      lastAdviceTime, lastPhoneWarning := 0, 0;
      sessionStart, lastAnalysis, lastObjectDetection := start, start, start;
      status, emotion, phoneDetected := P.Loading, E.Neutral, false;
      log := [];
      InitialInv(start);
    }

    /** Both models have loaded (or the webcam could not be opened): the status leaves Loading. */
    method ModelsLoaded()
      requires Valid()
      modifies this`status
      ensures Snap() == old(Snap()).(status := P.Distracted)
      ensures Valid()
    {
      status := P.Distracted;
    }

    /** Appends one output to the log. */
    method Emit(o: Output)
      modifies this`log
      ensures log == old(log) + [o]
    {
      log := log + [o];
    }

    /** The branch a face took: the status, the phone badge, the telemetry record and,
        when looking down, the phone warning through the shared limiter. */
    method ApplyBranch(b: P.PoseBranch, wsOpen: bool, now: int) returns (isFocused: bool)
      modifies this`status, this`phoneDetected, this`log, this`lastPhoneWarning
      ensures isFocused == (b == P.Centred)
      ensures status == P.StatusOf(b) && phoneDetected == (b == P.LookingDown)
      ensures log == old(log) + (if wsOpen then [Send(P.TelemetryOf(b))] else [])
                     + (if b == P.LookingDown && now - old(lastPhoneWarning) > PhoneWarningInterval then [Say(now, PhoneLine)] else [])
      ensures lastPhoneWarning == (if b == P.LookingDown && now - old(lastPhoneWarning) > PhoneWarningInterval then now else old(lastPhoneWarning))
    {
      isFocused := false;
      if b == P.LookingDown {
        phoneDetected := true;
        status := P.Distracted;
        if wsOpen {
          Emit(Send(P.PhoneDistraction));
        }
        if now - lastPhoneWarning > PhoneWarningInterval {
          Emit(Say(now, PhoneLine));
          lastPhoneWarning := now;
        }
      } else if b == P.Centred {
        phoneDetected := false;
        status := P.Focused;
        isFocused := true;
        if wsOpen {
          Emit(Send(P.FocusedPing));
        }
      } else {
        phoneDetected := false;
        status := P.Distracted;
        if wsOpen {
          Emit(Send(P.DistractedPing));
        }
      }
    }

    /** Pose smoothing, the pose branch and the emotion of one frame; without a face only
        the status, the "away" record and the "Searching..." emotion. */
    method ObserveFace(face: Option<Face>, wsOpen: bool, now: int) returns (isFocused: bool, currentEmotion: E.Emotion)
      requires face.Some? ==> WellFormedFace(face.value)
      modifies this`prevYaw, this`prevPitch, this`status, this`phoneDetected, this`log, this`lastPhoneWarning
      ensures Snap() == PoseStep(old(Snap()), face, wsOpen, now)
      ensures var p := Perceive(face, old(prevYaw), old(prevPitch));
              isFocused == IsFocusedFrame(p) && currentEmotion == p.emotion
    {
      match face {
        case Some(f) =>
          var smoothedYaw := P.Smooth(P.RawYaw(f.nose, f.leftEye, f.rightEye), prevYaw);
          var smoothedPitch := P.Smooth(P.RawPitch(f.nose), prevPitch);
          prevYaw, prevPitch := smoothedYaw, smoothedPitch;
          isFocused := ApplyBranch(P.Branch(smoothedYaw, smoothedPitch), wsOpen, now);
          currentEmotion := E.FaceEmotion(f.blendshapes, smoothedPitch);
        case None =>
          isFocused := false;
          status := P.Distracted;
          if wsOpen {
            Emit(Send(P.Away));
          }
          currentEmotion := E.Searching;
      }
    }

    /** Pushes the frame onto both histories, shifting out the oldest entry on overflow,
        and displays the mode of the emotion buffer. */
    method Record(isFocused: bool, currentEmotion: E.Emotion) returns (dominant: E.Emotion)
      modifies this`focusHistory, this`emotionBuffer, this`emotion
      ensures Snap() == RecordStep(old(Snap()), isFocused, currentEmotion)
      ensures dominant == emotion
    {
      var history := Seqs.PushShift(focusHistory, isFocused, FocusHistoryCapacity);
      var buffer := Seqs.PushShift(emotionBuffer, currentEmotion, EmotionBufferCapacity);
      dominant := S.Dominant(buffer);
      focusHistory, emotionBuffer, emotion := history, buffer, dominant;
    }

    /** The coaching slot: at most one message every 50 seconds, chosen by priority. */
    method Coach(dominant: E.Emotion, captured: P.Status, draws: C.Draws, now: int)
      requires dominant == emotion && C.ValidDraws(draws)
      modifies this`log, this`lastAdviceTime
      ensures Snap() == CoachStep(old(Snap()), captured, draws, now)
    {
      if now - lastAdviceTime > C.CoachingInterval {
        var message := C.CoachMessage(dominant, captured, draws);
        if message.Some? {
          Emit(Say(now, CoachLine(message.value)));
          lastAdviceTime := now;
        }
      }
    }

    /** Sends the focus share and session minutes for analysis, shows the returned advice
        and speaks it unless a coaching message was spoken in the last 10 seconds. */
    method RunAnalysis(reply: AnalysisReply, now: int)
      modifies this`log
      ensures Snap() == old(Snap()).(log := old(log) + AnalysisOutputs(focusHistory, reply, now, sessionStart, lastAdviceTime))
    {
      var score := AnalysisScore(focusHistory);
      var durationMinutes := DurationMinutes(now, sessionStart);
      Emit(Request(score, durationMinutes));
      if reply.Answered? && reply.advice.Some? {
        var advice := reply.advice.value;
        Emit(Notify(advice.title, advice.description, advice.kind == A.Warning));
        if now - lastAdviceTime > DoubleTalkInterval {
          Emit(Say(now, AdviceLine(advice.description)));
        }
      }
    }

    /** Raises the phone badge when a phone or remote is seen, and warns about the first
        one through the shared phone limiter. The badge is never cleared here. */
    method DetectObjects(detections: Option<seq<Detection>>, now: int)
      modifies this`log, this`lastPhoneWarning, this`phoneDetected
      ensures Snap() == old(Snap()).(
        phoneDetected := old(phoneDetected) || ObjectSeen(detections),
        log := old(log) + ObjectOutputs(detections, now, old(lastPhoneWarning)),
        lastPhoneWarning := if ObjectWarns(detections, now, old(lastPhoneWarning)) then now else old(lastPhoneWarning))
    {
      if detections.Some? && |detections.value| > 0 {
        var distracting := Distracting(detections.value);
        if |distracting| > 0 {
          var objectName := distracting[0].topLabel;
          phoneDetected := true;
          if now - lastPhoneWarning > PhoneWarningInterval {
            Emit(Say(now, ObjectLine(objectName)));
            lastPhoneWarning := now;
          }
        }
      }
    }

    /** The first half of a frame: perception, then both histories. */
    method Sense(face: Option<Face>, wsOpen: bool, now: int) returns (dominant: E.Emotion)
      requires face.Some? ==> WellFormedFace(face.value)
      modifies this`prevYaw, this`prevPitch, this`status, this`phoneDetected, this`log, this`lastPhoneWarning
      modifies this`focusHistory, this`emotionBuffer, this`emotion
      ensures var p := Perceive(face, old(prevYaw), old(prevPitch));
              Snap() == RecordStep(PoseStep(old(Snap()), face, wsOpen, now), IsFocusedFrame(p), p.emotion)
      ensures dominant == emotion
    {
      var isFocused, currentEmotion := ObserveFace(face, wsOpen, now);
      dominant := Record(isFocused, currentEmotion);
    }

    /** The second half of a frame: coaching, then the periodic analysis and object detection. */
    method Act(dominant: E.Emotion, captured: P.Status, draws: C.Draws, reply: AnalysisReply,
               detections: Option<seq<Detection>>, now: int)
      requires dominant == emotion && C.ValidDraws(draws)
      modifies this`log, this`lastAdviceTime, this`lastPhoneWarning, this`phoneDetected
      modifies this`lastAnalysis, this`lastObjectDetection
      ensures Snap() == DetectStep(AnalysisStep(CoachStep(old(Snap()), captured, draws, now), reply, now), detections, now)
    {
      Coach(dominant, captured, draws, now);
      if now - lastAnalysis > AnalysisInterval {
        RunAnalysis(reply, now);
        lastAnalysis := now;
      }
      if now - lastObjectDetection > ObjectDetectionInterval {
        DetectObjects(detections, now);
        lastObjectDetection := now;
      }
    }

    /** One frame of the tracker at time `now`. */
    method Step(frame: Frame, now: int)
      requires Valid() && WellFormed(frame)
      modifies this
      ensures Snap() == Next(old(Snap()), frame, now)
      ensures Valid()
    {
      NextInv(Snap(), frame, now);
      if frame.ready {
        var dominant := Sense(frame.face, frame.wsOpen, now);
        Act(dominant, frame.capturedStatus, frame.draws, frame.reply, frame.detections, now);
      }
    }
  }
}

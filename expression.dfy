/** Expression Classifier of the focus tracker: composite scores built from named
    blendshape scores, then a first-match threshold chain that names one emotion per frame. */
module Expression {
  import Seqs
  import opened Wrappers

  /** One named expression-intensity score reported by the face model. */
  datatype Blendshape = Blendshape(categoryName: string, score: real)

  /** The per-frame emotion values the tracker stores in its emotion buffer. The two neutral
      values are distinct keys: `Neutral` is the text "Neutral" left in place when the face
      has no blendshapes, `NeutralScored` is "😐 Neutral" from the scoring chain. */
  datatype Emotion =
    | Neutral        // "Neutral"
    | NeutralScored  // "😐 Neutral"
    | Happy          // "😊 Happy"
    | Overwhelmed    // "😫 Overwhelmed"
    | Fatigued       // "😴 Fatigued"
    | Confused       // "🤔 Confused"
    | Searching      // "Searching...": no face in the frame

  function Label(e: Emotion): string {
    match e
    case Neutral => "Neutral"
    case NeutralScored => "😐 Neutral"
    case Happy => "😊 Happy"
    case Overwhelmed => "😫 Overwhelmed"
    case Fatigued => "😴 Fatigued"
    case Confused => "🤔 Confused"
    case Searching => "Searching..."
  }

  function Names(bs: seq<Blendshape>): (ns: seq<string>)
    ensures |ns| == |bs| && forall i :: 0 <= i < |bs| ==> ns[i] == bs[i].categoryName
  {
    seq(|bs|, i requires 0 <= i < |bs| => bs[i].categoryName)
  }

  /** The score of the first blendshape with this name, or 0 when the name is absent. */
  function GetScore(bs: seq<Blendshape>, name: string): (r: real)
    ensures name !in Names(bs) ==> r == 0.0
    ensures name in Names(bs) ==> r == bs[Seqs.IndexOf(Names(bs), name)].score
  {
    if bs == [] then 0.0
    else if bs[0].categoryName == name then bs[0].score
    else
      assert Names(bs) == [bs[0].categoryName] + Names(bs[1..]);
      GetScore(bs[1..], name)
  }

  /** The four composite scores of one frame. */
  datatype Scores = Scores(smile: real, overwhelm: real, fatigue: real, confusion: real)

  /** Fatigue gains 0.2 exactly when the smoothed pitch is in the looking-down range. */
  function DroopBonus(smoothedPitch: real): real {
    if smoothedPitch > 0.65 then 0.2 else 0.0
  }

  /** The four composite scores; without blendshapes only the head-droop bonus remains. */
  function ComputeScores(bs: seq<Blendshape>, smoothedPitch: real): (sc: Scores)
    ensures bs == [] ==> sc == Scores(0.0, 0.0, DroopBonus(smoothedPitch), 0.0)
  {
    var smile := GetScore(bs, "mouthSmileLeft") + GetScore(bs, "mouthSmileRight");
    var browDown := GetScore(bs, "browDownLeft") + GetScore(bs, "browDownRight");
    var frown := GetScore(bs, "mouthFrownLeft") + GetScore(bs, "mouthFrownRight");
    var eyeBlink := (GetScore(bs, "eyeBlinkLeft") + GetScore(bs, "eyeBlinkRight")) / 2.0;
    var jawOpen := GetScore(bs, "jawOpen");
    Scores(smile,
           (browDown + frown) / 2.0,
           eyeBlink * 0.4 + jawOpen * 0.4 + DroopBonus(smoothedPitch),
           GetScore(bs, "browInnerUp"))
  }

  /** With every blendshape score in [0, 1], smiling and overwhelm (two sides added) lie
      in [0, 2], fatigue and confusion in [0, 1]. */
  lemma ScoresInRange(bs: seq<Blendshape>, smoothedPitch: real)
    requires forall i :: 0 <= i < |bs| ==> 0.0 <= bs[i].score <= 1.0
    ensures 0.0 <= ComputeScores(bs, smoothedPitch).smile <= 2.0
    ensures 0.0 <= ComputeScores(bs, smoothedPitch).overwhelm <= 2.0
    ensures 0.0 <= ComputeScores(bs, smoothedPitch).fatigue <= 1.0
    ensures 0.0 <= ComputeScores(bs, smoothedPitch).confusion <= 1.0
  {
    ScoreInUnit(bs, "mouthSmileLeft");
    ScoreInUnit(bs, "mouthSmileRight");
    ScoreInUnit(bs, "browDownLeft");
    ScoreInUnit(bs, "browDownRight");
    ScoreInUnit(bs, "mouthFrownLeft");
    ScoreInUnit(bs, "mouthFrownRight");
    ScoreInUnit(bs, "eyeBlinkLeft");
    ScoreInUnit(bs, "eyeBlinkRight");
    ScoreInUnit(bs, "jawOpen");
    ScoreInUnit(bs, "browInnerUp");
  }

  /** A score read from blendshapes whose scores lie in [0, 1] lies there too. */
  lemma ScoreInUnit(bs: seq<Blendshape>, name: string)
    requires forall i :: 0 <= i < |bs| ==> 0.0 <= bs[i].score <= 1.0
    ensures 0.0 <= GetScore(bs, name) <= 1.0
  {
    if name in Names(bs) {
      var k := Seqs.IndexOf(Names(bs), name);
      assert 0 <= k < |bs|;
    }
  }

  /** The head pitch moves only the fatigue score, and by exactly 0.2 across the
      looking-down threshold. */
  lemma FatigueDroop(bs: seq<Blendshape>, low: real, high: real)
    requires low <= 0.65 < high
    ensures ComputeScores(bs, high).fatigue == ComputeScores(bs, low).fatigue + 0.2
    ensures ComputeScores(bs, high).(fatigue := 0.0) == ComputeScores(bs, low).(fatigue := 0.0)
  {
  }

  /** With no blendshape present every score is 0 except the droop bonus, so an empty
      list yields "😐 Neutral" at any pitch. */
  lemma NoBlendshapesIsNeutral(smoothedPitch: real)
    ensures SelectEmotion(ComputeScores([], smoothedPitch)) == NeutralScored
  {
  }

  /** The scored emotions in the order the chain tests them. */
  const Priority: seq<Emotion> := [Happy, Overwhelmed, Fatigued, Confused]

  /** The threshold test of one scored emotion (each strict). */
  predicate Fires(e: Emotion, s: Scores) {
    match e
    case Happy => s.smile > 0.5
    case Overwhelmed => s.overwhelm > 0.45
    case Fatigued => s.fatigue > 0.35
    case Confused => s.confusion > 0.4
    case _ => false
  }

  /** First match wins: the result is the first emotion of `Priority` whose threshold is
      exceeded, and "😐 Neutral" when none is. */
  function SelectEmotion(s: Scores): (e: Emotion)
    ensures e in Priority ==> Fires(e, s) && forall k :: 0 <= k < Seqs.IndexOf(Priority, e) ==> !Fires(Priority[k], s)
    ensures e !in Priority ==> e == NeutralScored && forall k :: 0 <= k < |Priority| ==> !Fires(Priority[k], s)
  {
    if s.smile > 0.5 then Happy
    else if s.overwhelm > 0.45 then Overwhelmed
    else if s.fatigue > 0.35 then Fatigued
    else if s.confusion > 0.4 then Confused
    else NeutralScored
  }

  /** The emotion of a frame with a face: "Neutral" without blendshapes, else the chain. */
  function FaceEmotion(blendshapes: Option<seq<Blendshape>>, smoothedPitch: real): (e: Emotion)
    ensures e != Searching
    ensures e == Neutral <==> blendshapes.None?
  {
    match blendshapes
    case None => Neutral
    case Some(bs) => SelectEmotion(ComputeScores(bs, smoothedPitch))
  }
}

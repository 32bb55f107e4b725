/**
 * The emotion scorer: turns the blendshape scores of the first detected face
 * into one of five emotions (EmotionDetector.detectAmotion).
 *
 * Scores are modelled as mathematical reals; the source computes in 32-bit floats.
 */
module EmotionDetector {
  import opened Wrappers
  import opened EmotionModel

  /** One blendshape category reported by the face landmarker: a name and a confidence score. */
  datatype Category = Category(categoryName: string, score: real)

  /** The part of a face landmarker result the scorer reads: per-face blendshape lists, if present. */
  datatype FaceLandmarkerResult = FaceLandmarkerResult(faceBlendshapes: Option<seq<seq<Category>>>)

  /** One entry of the insertion-ordered emotion-to-score map. */
  datatype ScoreEntry = ScoreEntry(key: Emotion, value: real)

  const GeneralThreshold: real := 0.25
  const SadnessThreshold: real := 0.15

  /** The score at or above which an emotion beats the neutral score (see Classify). */
  const DecisiveScore: real := 0.8 / 3.0

  // ---------------------------------------------------------------------------
  // Blendshape lookup
  // ---------------------------------------------------------------------------

  /** `associateBy { it.categoryName() }`: later categories with the same name replace earlier ones. */
  function AssociateBy(cs: seq<Category>): (m: map<string, Category>)
    ensures forall i :: 0 <= i < |cs| ==> cs[i].categoryName in m
    ensures forall name :: name in m ==> m[name] in cs && m[name].categoryName == name
  {
    if cs == [] then map[] else AssociateBy(cs[..|cs| - 1])[cs[|cs| - 1].categoryName := cs[|cs| - 1]]
  }

  /** A name no category carries is absent from the associated map. */
  lemma {:induction false} AssociateByMissing(cs: seq<Category>, name: string)
    requires forall i :: 0 <= i < |cs| ==> cs[i].categoryName != name
    ensures name !in AssociateBy(cs)
  {
    if cs != [] {
      AssociateByMissing(cs[..|cs| - 1], name);
    }
  }

  /** The map holds, for each name, the last category that carries it. */
  lemma {:induction false} AssociateByLast(cs: seq<Category>, i: nat)
    requires i < |cs|
    requires forall j :: i < j < |cs| ==> cs[j].categoryName != cs[i].categoryName
    ensures cs[i].categoryName in AssociateBy(cs)
    ensures AssociateBy(cs)[cs[i].categoryName] == cs[i]
  {
    if i < |cs| - 1 {
      AssociateByLast(cs[..|cs| - 1], i);
    }
  }

  /** `getBlendshapeValue`: the score of the named blendshape, 0 when the name is missing. */
  function GetBlendshapeValue(m: map<string, Category>, name: string): (v: real)
    ensures name !in m ==> v == 0.0
    ensures name in m ==> v == m[name].score
  {
    if name in m then m[name].score else 0.0
  }

  /** The lookup function handed to the four score calculations. */
  function BlendshapeValues(cs: seq<Category>): (get: string -> real)
    ensures forall name :: (get(name) == 0.0
      || exists i :: 0 <= i < |cs| && cs[i].categoryName == name && get(name) == cs[i].score)
  {
    name => GetBlendshapeValue(AssociateBy(cs), name)
  }

  /** A blendshape name that no category of the face carries reads as 0. */
  lemma MissingBlendshapeIsZero(cs: seq<Category>, name: string)
    requires forall i :: 0 <= i < |cs| ==> cs[i].categoryName != name
    ensures BlendshapeValues(cs)(name) == 0.0
  {
    AssociateByMissing(cs, name);
  }

  /** A present blendshape reads as the score of its last occurrence in the face's list. */
  lemma PresentBlendshapeIsLastScore(cs: seq<Category>, i: nat)
    requires i < |cs|
    requires forall j :: i < j < |cs| ==> cs[j].categoryName != cs[i].categoryName
    ensures BlendshapeValues(cs)(cs[i].categoryName) == cs[i].score
  {
    AssociateByLast(cs, i);
  }

  /** Every blendshape the lookup can return lies in [0, 1] (the landmarker's documented range). */
  ghost predicate UnitRange(get: string -> real)
  {
    forall name :: 0.0 <= get(name) <= 1.0
  }

  /** If every category's score lies in [0, 1], so does every lookup, including the default 0. */
  lemma {:induction false} LookupInUnitRange(cs: seq<Category>)
    requires forall i :: 0 <= i < |cs| ==> 0.0 <= cs[i].score <= 1.0
    ensures UnitRange(BlendshapeValues(cs))
  {
    forall name: string ensures 0.0 <= BlendshapeValues(cs)(name) <= 1.0 {
      if j :| 0 <= j < |cs| && cs[j].categoryName == name {
        var k := LastWithName(cs, name, j);
        AssociateByLast(cs, k);
      } else {
        AssociateByMissing(cs, name);
      }
    }
  }

  /** The index of the last category carrying `name`, at or after a known one. */
  lemma {:induction false} LastWithName(cs: seq<Category>, name: string, j: nat) returns (k: nat)
    requires j < |cs| && cs[j].categoryName == name
    ensures j <= k < |cs| && cs[k].categoryName == name
    ensures forall l :: k < l < |cs| ==> cs[l].categoryName != name
    decreases |cs| - j
  {
    if l :| j < l < |cs| && cs[l].categoryName == name {
      k := LastWithName(cs, name, l);
    } else {
      k := j;
    }
  }

  // ---------------------------------------------------------------------------
  // The four weighted scores
  // ---------------------------------------------------------------------------

  /** `calculateHappinessScore`: smile, cheek squint and eye squint, weighted 0.5, 0.3 and 0.2 per side. */
  function HappinessScore(get: string -> real): (r: real)
    ensures UnitRange(get) ==> 0.0 <= r <= 2.0
  {
    (get("mouthSmileLeft") + get("mouthSmileRight")) * 0.5
      + (get("cheekSquintLeft") + get("cheekSquintRight")) * 0.3
      + (get("eyeSquintLeft") + get("eyeSquintRight")) * 0.2
  }

  /** `calculateSadnessScore` before the cap: averaged frown, brow, lower-lip, mouth and gaze cues. */
  function SadnessRaw(get: string -> real): (r: real)
    ensures UnitRange(get) ==> 0.0 <= r <= 1.0
  {
    var frownIntensity := (get("mouthFrownLeft") + get("mouthFrownRight")) / 2.0;
    var mouthDownIntensity := (get("mouthLowerDownLeft") + get("mouthLowerDownRight")) / 2.0;
    var eyeDownwardIntensity := (get("eyeLookDownLeft") + get("eyeLookDownRight")) / 2.0;
    var mouthIntensity := (get("mouthLeft") + get("mouthRight")) / 2.0;
    frownIntensity * 0.35 + get("browInnerUp") * 0.3 + mouthDownIntensity * 0.15
      + mouthIntensity * 0.15 + eyeDownwardIntensity * 0.05
  }

  /** `calculateSadnessScore`: the raw sadness amplified by 1.3 and capped at 1. */
  function SadnessScore(get: string -> real): (r: real)
    ensures r <= 1.0
    ensures r < 1.0 ==> r == SadnessRaw(get) * 1.3
    ensures UnitRange(get) ==> 0.0 <= r
  {
    RealMin(1.0, SadnessRaw(get) * 1.3)
  }

  /** `calculateSurpriseScore`: raised brows, widened eyes and open jaw, capped at 1. */
  function SurpriseScore(get: string -> real): (r: real)
    ensures r <= 1.0
    // for landmarker scores in [0, 1] the weights sum to 0.9, so the cap never engages
    ensures UnitRange(get) ==> 0.0 <= r <= 0.9
  {
    var browRaise := (get("browInnerUp") + get("browOuterUpLeft") + get("browOuterUpRight")) / 3.0;
    var eyeWiden := (get("eyeWideLeft") + get("eyeWideRight")) / 2.0;
    RealMin(1.0, browRaise * 0.45 + eyeWiden * 0.3 + get("jawOpen") * 0.15)
  }

  /** `calculateAngerScore`: lowered brows, eye squint, pressed lips and nose sneer. */
  function AngerScore(get: string -> real): (r: real)
    ensures UnitRange(get) ==> 0.0 <= r <= 2.0
  {
    (get("browDownLeft") + get("browDownRight")) * 0.35
      + (get("eyeSquintLeft") + get("eyeSquintRight")) * 0.25
      + (get("mouthPressLeft") + get("mouthPressRight")) * 0.2
      + (get("noseSneerLeft") + get("noseSneerRight")) * 0.2
  }

  function RealMin(a: real, b: real): (r: real)
    ensures r <= a && r <= b && (r == a || r == b)
  {
    if a <= b then a else b
  }

  function RealMax(a: real, b: real): (r: real)
    ensures r >= a && r >= b && (r == a || r == b)
  {
    if a >= b then a else b
  }

  /** Kotlin's four-argument `maxOf`. */
  function Max4(a: real, b: real, c: real, d: real): (r: real)
    ensures r >= a && r >= b && r >= c && r >= d
    ensures r == a || r == b || r == c || r == d
  {
    RealMax(RealMax(RealMax(a, b), c), d)
  }

  /** The neutral score: high when every emotion score is low, never negative. */
  function NeutralScore(maxEmotion: real): (r: real)
    ensures r >= 0.0 && r >= 0.8 - maxEmotion * 2.0
    ensures r == 0.0 || r == 0.8 - maxEmotion * 2.0
  {
    RealMax(0.0, 0.8 - maxEmotion * 2.0)
  }

  /** The ordered keys of the score map built by `calculateEmotionScores`. */
  const ScoreOrder: seq<Emotion> := [HAPPY, SAD, SURPRISED, ANGRY, NEUTRAL]

  /** The ordered score map for four emotion scores, with the neutral score derived from their maximum. */
  function ScoreMap(happinessScore: real, sadnessScore: real, surpriseScore: real, angerScore: real): (scores: seq<ScoreEntry>)
    ensures |scores| == 5
    ensures forall i :: 0 <= i < 5 ==> scores[i].key == ScoreOrder[i]
    ensures scores[4].value >= 0.0
    ensures scores[4].value
      == RealMax(0.0, 0.8 - 2.0 * Max4(scores[0].value, scores[1].value, scores[2].value, scores[3].value))
  {
    var maxEmotion := Max4(happinessScore, sadnessScore, surpriseScore, angerScore);
    [ ScoreEntry(HAPPY, happinessScore),
      ScoreEntry(SAD, sadnessScore),
      ScoreEntry(SURPRISED, surpriseScore),
      ScoreEntry(ANGRY, angerScore),
      ScoreEntry(NEUTRAL, NeutralScore(maxEmotion)) ]
  }

  /** `calculateEmotionScores`: the five scores of one face, in insertion order HAPPY, SAD, SURPRISED, ANGRY, NEUTRAL. */
  function CalculateEmotionScores(cs: seq<Category>): (scores: seq<ScoreEntry>)
    ensures |scores| == 5
    ensures forall i :: 0 <= i < 5 ==> scores[i].key == ScoreOrder[i]
    ensures scores[1].value <= 1.0 && scores[2].value <= 1.0
    ensures scores[4].value >= 0.0
    ensures scores[4].value
      == RealMax(0.0, 0.8 - 2.0 * Max4(scores[0].value, scores[1].value, scores[2].value, scores[3].value))
  {
    var get := BlendshapeValues(cs);
    ScoreMap(HappinessScore(get), SadnessScore(get), SurpriseScore(get), AngerScore(get))
  }

  // ---------------------------------------------------------------------------
  // Arg-max and thresholds
  // ---------------------------------------------------------------------------

  /** Entry k holds a maximum value and every entry before it is strictly smaller. */
  ghost predicate IsFirstMax(entries: seq<ScoreEntry>, k: nat)
  {
    && k < |entries|
    && (forall j :: 0 <= j < |entries| ==> entries[j].value <= entries[k].value)
    && (forall j :: 0 <= j < k ==> entries[j].value < entries[k].value)
  }

  /** The index `maxByOrNull { it.value }` selects: scanning left to right, a later entry replaces the
      current best only when strictly greater, so the earliest maximum wins. */
  function FirstMaxIndex(entries: seq<ScoreEntry>): (k: nat)
    requires |entries| > 0
    ensures IsFirstMax(entries, k)
  {
    if |entries| == 1 then 0
    else
      var best := FirstMaxIndex(entries[..|entries| - 1]);
      if entries[best].value < entries[|entries| - 1].value then |entries| - 1 else best
  }

  /** At most one index is the first maximum (two such indices would each be strictly below the other). */
  lemma FirstMaxUnique(entries: seq<ScoreEntry>, k: nat, k': nat)
    requires IsFirstMax(entries, k) && IsFirstMax(entries, k')
    ensures k == k'
  {
    assert entries[k].value <= entries[k'].value && entries[k'].value <= entries[k].value;
  }

  /** `maxByOrNull { it.value }`: null on an empty map, otherwise an entry holding the largest value. */
  function MaxByOrNull(entries: seq<ScoreEntry>): (r: Option<ScoreEntry>)
    ensures r.None? <==> entries == []
    ensures r.Some? ==> r.value in entries
    ensures r.Some? ==> forall e :: e in entries ==> e.value <= r.value.value
    ensures r.Some? ==> exists k: nat :: IsFirstMax(entries, k) && r.value == entries[k]
  {
    if entries == [] then None else Some(entries[FirstMaxIndex(entries)])
  }

  /** `getHighestEmotion`: the top entry, subject to the two-tier threshold. */
  function GetHighestEmotion(emotionScores: seq<ScoreEntry>): (r: Emotion)
    ensures emotionScores == [] ==> r == NEUTRAL
    ensures r != NEUTRAL ==> (exists k: nat ::
      IsFirstMax(emotionScores, k) && emotionScores[k].key == r && emotionScores[k].value >= SadnessThreshold)
  {
    match MaxByOrNull(emotionScores)
    case None => NEUTRAL
    case Some(maxEmotion) =>
      if maxEmotion.key == SAD && maxEmotion.value >= SadnessThreshold then SAD
      else if maxEmotion.value >= GeneralThreshold then maxEmotion.key
      else NEUTRAL
  }

  /** The two-tier threshold, stated against the first maximum: a top SAD entry needs 0.15,
      any other top entry needs 0.25, and below its threshold the answer is NEUTRAL. */
  lemma HighestEmotionThresholds(emotionScores: seq<ScoreEntry>, k: nat)
    requires IsFirstMax(emotionScores, k)
    ensures var top := emotionScores[k];
      GetHighestEmotion(emotionScores)
        == if top.key == SAD && top.value >= 0.15 then SAD
           else if top.value >= 0.25 then top.key
           else NEUTRAL
  {
  }

  /** An empty score map yields NEUTRAL. The detector always builds five entries, so it never reaches this case. */
  lemma EmptyScoresAreNeutral()
    ensures GetHighestEmotion([]) == NEUTRAL
  {
  }

  // ---------------------------------------------------------------------------
  // The detector
  // ---------------------------------------------------------------------------

  /** `detectAmotion`: NEUTRAL without a face, otherwise the highest emotion of the first face. */
  function DetectEmotion(result: FaceLandmarkerResult): (r: Emotion)
    ensures result.faceBlendshapes.None? || result.faceBlendshapes.value == [] ==> r == NEUTRAL
    ensures r != NEUTRAL ==> (exists k: nat ::
      && k < 4
      && IsFirstMax(CalculateEmotionScores(result.faceBlendshapes.value[0]), k)
      && CalculateEmotionScores(result.faceBlendshapes.value[0])[k].key == r)
  {
    if result.faceBlendshapes.None? || result.faceBlendshapes.value == [] then NEUTRAL
    else GetHighestEmotion(CalculateEmotionScores(result.faceBlendshapes.value[0]))
  }

  /** Without blendshapes, or with an empty face list, the detector reports NEUTRAL. */
  lemma NoFaceIsNeutral(result: FaceLandmarkerResult)
    requires result.faceBlendshapes.None? || result.faceBlendshapes.value == []
    ensures DetectEmotion(result) == NEUTRAL
  {
  }

  /** Reference classification from the four emotion scores alone: the earliest of HAPPY, SAD,
      SURPRISED, ANGRY holding the largest score, provided that score reaches 0.8/3; else NEUTRAL. */
  function Classify(happy: real, sad: real, surprise: real, anger: real): (e: Emotion)
    ensures e != NEUTRAL ==> Max4(happy, sad, surprise, anger) >= DecisiveScore
  {
    var m := Max4(happy, sad, surprise, anger);
    if m < DecisiveScore then NEUTRAL
    else if happy == m then HAPPY
    else if sad == m then SAD
    else if surprise == m then SURPRISED
    else ANGRY
  }

  /** The arg-max and thresholds applied to a score map agree with Classify: since the neutral score is
      max(0, 0.8 - 2m), it outranks every emotion exactly when the largest emotion score m is below 0.8/3. */
  lemma ScoreMapIsClassify(h: real, s: real, u: real, a: real)
    ensures GetHighestEmotion(ScoreMap(h, s, u, a)) == Classify(h, s, u, a)
  {
  }

  /** The scorer's result for one face is Classify of its four emotion scores. */
  lemma HighestEmotionIsClassify(cs: seq<Category>)
    ensures var get := BlendshapeValues(cs);
      GetHighestEmotion(CalculateEmotionScores(cs))
        == Classify(HappinessScore(get), SadnessScore(get), SurpriseScore(get), AngerScore(get))
  {
    var get := BlendshapeValues(cs);
    ScoreMapIsClassify(HappinessScore(get), SadnessScore(get), SurpriseScore(get), AngerScore(get));
  }

  /** The detector's result, characterised without arg-max or thresholds. */
  lemma DetectEmotionIsClassify(result: FaceLandmarkerResult)
    requires result.faceBlendshapes.Some? && result.faceBlendshapes.value != []
    ensures var get := BlendshapeValues(result.faceBlendshapes.value[0]);
      DetectEmotion(result)
        == Classify(HappinessScore(get), SadnessScore(get), SurpriseScore(get), AngerScore(get))
  {
    HighestEmotionIsClassify(result.faceBlendshapes.value[0]);
  }

  /** When every category of a face scores 0, every lookup reads 0. */
  lemma {:induction false} AllZeroLookup(cs: seq<Category>)
    requires forall i :: 0 <= i < |cs| ==> cs[i].score == 0.0
    ensures forall name :: BlendshapeValues(cs)(name) == 0.0
  {
    forall name: string ensures BlendshapeValues(cs)(name) == 0.0 {
      if j :| 0 <= j < |cs| && cs[j].categoryName == name {
        var k := LastWithName(cs, name, j);
        PresentBlendshapeIsLastScore(cs, k);
      } else {
        MissingBlendshapeIsZero(cs, name);
      }
    }
  }

  /** When every lookup reads 0, the four emotion scores are 0 and the neutral score 0.8 wins. */
  lemma ZeroScoresAreNeutral(get: string -> real)
    requires forall name :: get(name) == 0.0
    ensures HappinessScore(get) == 0.0 && SadnessScore(get) == 0.0 && SurpriseScore(get) == 0.0 && AngerScore(get) == 0.0
    ensures NeutralScore(Max4(HappinessScore(get), SadnessScore(get), SurpriseScore(get), AngerScore(get))) == 0.8
    ensures Classify(HappinessScore(get), SadnessScore(get), SurpriseScore(get), AngerScore(get)) == NEUTRAL
  {
    assert HappinessScore(get) == 0.0 && SadnessScore(get) == 0.0;
    assert SurpriseScore(get) == 0.0 && AngerScore(get) == 0.0;
  }

  /** When every blendshape of the first face is 0 (or the face lists none), the result is NEUTRAL. */
  lemma AllZeroIsNeutral(result: FaceLandmarkerResult)
    requires result.faceBlendshapes.Some? && result.faceBlendshapes.value != []
    requires forall i :: 0 <= i < |result.faceBlendshapes.value[0]| ==> result.faceBlendshapes.value[0][i].score == 0.0
    ensures DetectEmotion(result) == NEUTRAL
  {
    var cs := result.faceBlendshapes.value[0];
    AllZeroLookup(cs);
    ZeroScoresAreNeutral(BlendshapeValues(cs));
    HighestEmotionIsClassify(cs);
  }

  /** A SAD result needs a sadness score of at least 0.8/3: the lowered 0.15 threshold never decides. */
  lemma SadNeedsDecisiveScore(result: FaceLandmarkerResult)
    requires DetectEmotion(result) == SAD
    ensures result.faceBlendshapes.Some? && result.faceBlendshapes.value != []
    ensures SadnessScore(BlendshapeValues(result.faceBlendshapes.value[0])) >= DecisiveScore
  {
    DetectEmotionIsClassify(result);
  }

  /** Any non-neutral result has a score of at least 0.8/3, above both thresholds. */
  lemma EmotionNeedsDecisiveScore(result: FaceLandmarkerResult)
    requires DetectEmotion(result) != NEUTRAL
    ensures result.faceBlendshapes.Some? && result.faceBlendshapes.value != []
    ensures var get := BlendshapeValues(result.faceBlendshapes.value[0]);
      Max4(HappinessScore(get), SadnessScore(get), SurpriseScore(get), AngerScore(get)) >= DecisiveScore
  {
    DetectEmotionIsClassify(result);
  }

  // ---------------------------------------------------------------------------
  // Worked inputs
  // ---------------------------------------------------------------------------

  /** A face listing exactly two distinct blendshapes reads their scores and 0 for every other name. */
  lemma TwoCategoryLookup(n1: string, v1: real, n2: string, v2: real)
    requires n1 != n2
    ensures var get := BlendshapeValues([Category(n1, v1), Category(n2, v2)]);
      && get(n1) == v1 && get(n2) == v2
      && forall name | name != n1 && name != n2 :: get(name) == 0.0
  {
    var cs := [Category(n1, v1), Category(n2, v2)];
    PresentBlendshapeIsLastScore(cs, 0);
    PresentBlendshapeIsLastScore(cs, 1);
    forall name | name != n1 && name != n2 ensures BlendshapeValues(cs)(name) == 0.0 {
      MissingBlendshapeIsZero(cs, name);
    }
  }

  /** A face that smiles at 0.9 on both sides and shows nothing else is HAPPY. */
  lemma SmileIsHappy()
    ensures DetectEmotion(FaceLandmarkerResult(Some([[Category("mouthSmileLeft", 0.9), Category("mouthSmileRight", 0.9)]])))
      == HAPPY
  {
    var cs := [Category("mouthSmileLeft", 0.9), Category("mouthSmileRight", 0.9)];
    TwoCategoryLookup("mouthSmileLeft", 0.9, "mouthSmileRight", 0.9);
    SmileScores(BlendshapeValues(cs));
    HighestEmotionIsClassify(cs);
  }

  lemma SmileScores(get: string -> real)
    requires get("mouthSmileLeft") == 0.9 && get("mouthSmileRight") == 0.9
    requires forall name | name != "mouthSmileLeft" && name != "mouthSmileRight" :: get(name) == 0.0
    ensures HappinessScore(get) == 0.9
    ensures SadnessScore(get) == 0.0 && SurpriseScore(get) == 0.0 && AngerScore(get) == 0.0
  {
  }

  /** Lips pulled fully to both sides and nothing else: sadness 0.195 tops the four emotions,
      yet the neutral score 0.41 outranks it. */
  const PulledMouthFace: seq<Category> := [Category("mouthLeft", 1.0), Category("mouthRight", 1.0)]

  lemma PulledMouthScoreValues(get: string -> real)
    requires get("mouthLeft") == 1.0 && get("mouthRight") == 1.0
    requires forall name | name != "mouthLeft" && name != "mouthRight" :: get(name) == 0.0
    ensures SadnessScore(get) == 0.195
    ensures HappinessScore(get) == 0.0 && SurpriseScore(get) == 0.0 && AngerScore(get) == 0.0
  {
  }

  /** For PulledMouthFace, sadness is 0.195, at least the 0.15 SAD threshold, and the other three are 0. */
  lemma PulledMouthScores()
    ensures var get := BlendshapeValues(PulledMouthFace);
      && SadnessScore(get) == 0.195
      && HappinessScore(get) == 0.0 && SurpriseScore(get) == 0.0 && AngerScore(get) == 0.0
  {
    TwoCategoryLookup("mouthLeft", 1.0, "mouthRight", 1.0);
    PulledMouthScoreValues(BlendshapeValues(PulledMouthFace));
  }

  /** The detector as it stands: SAD is the top emotion of PulledMouthFace and passes the 0.15 threshold, yet the
      neutral score 0.41 outranks it and the detector reports NEUTRAL. */
  lemma PulledMouthIsNeutral()
    ensures DetectEmotion(FaceLandmarkerResult(Some([PulledMouthFace]))) == NEUTRAL
  {
    PulledMouthScores();
    HighestEmotionIsClassify(PulledMouthFace);
  }

  lemma FrownScoreValues(get: string -> real)
    requires get("mouthFrownLeft") == 1.0 && get("mouthFrownRight") == 1.0
    requires forall name | name != "mouthFrownLeft" && name != "mouthFrownRight" :: get(name) == 0.0
    ensures SadnessScore(get) == 0.455
    ensures HappinessScore(get) == 0.0 && SurpriseScore(get) == 0.0 && AngerScore(get) == 0.0
  {
  }

  /** A full frown on both sides and nothing else gives sadness 0.455, and the detector reports SAD. */
  lemma FrownIsSad()
    ensures SadnessScore(BlendshapeValues([Category("mouthFrownLeft", 1.0), Category("mouthFrownRight", 1.0)])) == 0.455
    ensures DetectEmotion(FaceLandmarkerResult(Some([[Category("mouthFrownLeft", 1.0), Category("mouthFrownRight", 1.0)]])))
      == SAD
  {
    var cs := [Category("mouthFrownLeft", 1.0), Category("mouthFrownRight", 1.0)];
    TwoCategoryLookup("mouthFrownLeft", 1.0, "mouthFrownRight", 1.0);
    FrownScoreValues(BlendshapeValues(cs));
    HighestEmotionIsClassify(cs);
  }

  // ---------------------------------------------------------------------------
  // Corrected scorer: the thresholds decide among the four emotion scores
  // ---------------------------------------------------------------------------

  /** The detector with the arg-max taken over the four emotion entries only, NEUTRAL being the
      fallback when the top emotion misses its threshold; this makes the 0.15 SAD threshold effective. */
  function DetectEmotionCorrected(result: FaceLandmarkerResult): (r: Emotion)
    ensures result.faceBlendshapes.None? || result.faceBlendshapes.value == [] ==> r == NEUTRAL
    ensures r != NEUTRAL ==> (exists k: nat ::
      IsFirstMax(CalculateEmotionScores(result.faceBlendshapes.value[0])[..4], k)
      && CalculateEmotionScores(result.faceBlendshapes.value[0])[k].key == r
      && CalculateEmotionScores(result.faceBlendshapes.value[0])[k].value >= SadnessThreshold)
  {
    if result.faceBlendshapes.None? || result.faceBlendshapes.value == [] then NEUTRAL
    else GetHighestEmotion(CalculateEmotionScores(result.faceBlendshapes.value[0])[..4])
  }

  /** The corrected detector follows the two-tier threshold on the top of the four emotion scores. */
  lemma CorrectedThresholds(result: FaceLandmarkerResult, k: nat)
    requires result.faceBlendshapes.Some? && result.faceBlendshapes.value != []
    requires IsFirstMax(CalculateEmotionScores(result.faceBlendshapes.value[0])[..4], k)
    ensures var top := CalculateEmotionScores(result.faceBlendshapes.value[0])[k];
      DetectEmotionCorrected(result)
        == if top.key == SAD && top.value >= 0.15 then SAD
           else if top.value >= 0.25 then top.key
           else NEUTRAL
  {
    HighestEmotionThresholds(CalculateEmotionScores(result.faceBlendshapes.value[0])[..4], k);
  }

  /** Among four emotion scores, a top sadness score of at least 0.15 is reported as SAD by the corrected rule. */
  lemma SadTopOfFour(h: real, s: real, u: real, a: real)
    requires h < s && u <= s && a <= s && s >= 0.15
    ensures GetHighestEmotion(ScoreMap(h, s, u, a)[..4]) == SAD
  {
  }

  /** The corrected detector reports SAD for PulledMouthFace. */
  lemma PulledMouthIsSadWhenCorrected()
    ensures DetectEmotionCorrected(FaceLandmarkerResult(Some([PulledMouthFace]))) == SAD
  {
    PulledMouthScores();
    SadTopOfFour(0.0, 0.195, 0.0, 0.0);
  }

  /** On a score map whose largest emotion score reaches 0.8/3, dropping the neutral entry changes nothing. */
  lemma ScoreMapPrefixAgrees(h: real, s: real, u: real, a: real)
    requires Max4(h, s, u, a) >= DecisiveScore
    ensures GetHighestEmotion(ScoreMap(h, s, u, a)[..4]) == GetHighestEmotion(ScoreMap(h, s, u, a))
  {
  }

  /** The correction changes nothing once some emotion score reaches 0.8/3. */
  lemma CorrectedAgreesOnDecisiveScores(result: FaceLandmarkerResult)
    requires result.faceBlendshapes.Some? && result.faceBlendshapes.value != []
    requires var get := BlendshapeValues(result.faceBlendshapes.value[0]);
      Max4(HappinessScore(get), SadnessScore(get), SurpriseScore(get), AngerScore(get)) >= DecisiveScore
    ensures DetectEmotionCorrected(result) == DetectEmotion(result)
  {
    var get := BlendshapeValues(result.faceBlendshapes.value[0]);
    ScoreMapPrefixAgrees(HappinessScore(get), SadnessScore(get), SurpriseScore(get), AngerScore(get));
  }
}

# Emotion-aware keyboard core, modelled in Dafny

This project models the logic core of an Android soft keyboard that watches the user's face and suggests emoji:

- **the emotion scorer** (`EmotionDetector`). It reads the blendshape scores of the first face in a face-landmarker result. It combines them into four weighted emotion scores (happiness, sadness, surprise, anger) and derives a neutral score from the largest of them. It then picks the top entry of the ordered five-entry score map and applies a two-tier threshold: 0.15 for SAD, 0.25 for the others, NEUTRAL when the threshold is missed.
- **the suggestion table** (`SuggestionsProvider`): five emoji for each non-neutral emotion, and the empty list for NEUTRAL.
- **the English layout** (`KeyboardLanguageConfig`): three rows of character keys and their shifted counterparts.
- **the language manager** (`KeyboardLanguageManager`), a class. Its index into a fixed, non-empty list of languages is restored from a key-value store at construction. `SwitchToNextLanguage` advances the index cyclically and writes the new language code back to the store.

Files: `wrappers.dfy` (Option), `emotion.dfy` (the Emotion enum), `emotion_detector.dfy`, `suggestions_provider.dfy`, `key.dfy` (the Key datatype), `keyboard_language_config.dfy`, `keyboard_language_manager.dfy`.

The central result about the scorer is `EmotionDetector.DetectEmotionIsClassify`. The neutral score is max(0, 0.8 − 2m), where m is the largest emotion score. For the range of m that matters, this exceeds m exactly when m < 0.8/3. So the detector returns the earliest of HAPPY, SAD, SURPRISED, ANGRY that attains m when m ≥ 0.8/3, and NEUTRAL otherwise. Both thresholds are below 0.8/3, so neither ever decides the outcome. The dedicated `sadnessThreshold = 0.15f` (EmotionDetector.kt:134) and its branch at line 142 exist only to let weaker sadness through, so this is evidently unintended (see "## Findings"). The model follows the code as written.

## Model

| member | source | states |
|---|---|---|
| EmotionDetector.AssociateBy | app/src/main/java/kz/project/keyboard/emotiondetection/EmotionDetector.kt:24 | every category's name is a key, and each key maps to a category of the face carrying that name |
| EmotionDetector.GetBlendshapeValue | app/src/main/java/kz/project/keyboard/emotiondetection/EmotionDetector.kt:26-27 | the stored category's score for a present name, 0 for a missing one |
| EmotionDetector.BlendshapeValues | app/src/main/java/kz/project/keyboard/emotiondetection/EmotionDetector.kt:26-27 | every lookup is 0 or the score of some category of the face carrying that name |
| EmotionDetector.MissingBlendshapeIsZero | app/src/main/java/kz/project/keyboard/emotiondetection/EmotionDetector.kt:24-27 | a name that no category of the face carries reads as 0 |
| EmotionDetector.PresentBlendshapeIsLastScore | app/src/main/java/kz/project/keyboard/emotiondetection/EmotionDetector.kt:24-27 | a present name reads as the score of its last occurrence (`associateBy` keeps the last duplicate) |
| EmotionDetector.AssociateByMissing | app/src/main/java/kz/project/keyboard/emotiondetection/EmotionDetector.kt:24 | a name carried by no category is not a key of the associated map |
| EmotionDetector.AssociateByLast | app/src/main/java/kz/project/keyboard/emotiondetection/EmotionDetector.kt:24 | the associated map holds, for each name, the last category carrying it |
| EmotionDetector.LookupInUnitRange | app/src/main/java/kz/project/keyboard/emotiondetection/EmotionDetector.kt:26-27 | if every category score is in [0, 1], so is every lookup, including the default 0 |
| EmotionDetector.HappinessScore | app/src/main/java/kz/project/keyboard/emotiondetection/EmotionDetector.kt:46-59 | for blendshapes in [0, 1] the happiness score lies in [0, 2] |
| EmotionDetector.SadnessRaw | app/src/main/java/kz/project/keyboard/emotiondetection/EmotionDetector.kt:78-87 | for blendshapes in [0, 1] the uncapped sadness lies in [0, 1] (the weights sum to 1) |
| EmotionDetector.SadnessScore | app/src/main/java/kz/project/keyboard/emotiondetection/EmotionDetector.kt:89 | sadness never exceeds 1; below 1 it is the raw sadness times 1.3; it is non-negative for blendshapes in [0, 1] |
| EmotionDetector.SurpriseScore | app/src/main/java/kz/project/keyboard/emotiondetection/EmotionDetector.kt:92-109 | surprise never exceeds 1; for blendshapes in [0, 1] it lies in [0, 0.9], so the cap never engages there |
| EmotionDetector.AngerScore | app/src/main/java/kz/project/keyboard/emotiondetection/EmotionDetector.kt:111-130 | for blendshapes in [0, 1] the anger score lies in [0, 2] |
| EmotionDetector.Max4 | app/src/main/java/kz/project/keyboard/emotiondetection/EmotionDetector.kt:34 | the result is one of the four arguments and at least each of them |
| EmotionDetector.NeutralScore | app/src/main/java/kz/project/keyboard/emotiondetection/EmotionDetector.kt:35 | the neutral score is never negative, at least 0.8 − 2·max, and equal to 0 or to 0.8 − 2·max |
| EmotionDetector.ScoreMap | app/src/main/java/kz/project/keyboard/emotiondetection/EmotionDetector.kt:34-43 | five entries keyed HAPPY, SAD, SURPRISED, ANGRY, NEUTRAL in that order; neutral = max(0, 0.8 − 2·max of the other four) ≥ 0 |
| EmotionDetector.CalculateEmotionScores | app/src/main/java/kz/project/keyboard/emotiondetection/EmotionDetector.kt:21-44 | the same ordered five entries for a face, with sadness and surprise at most 1 |
| EmotionDetector.FirstMaxIndex | app/src/main/java/kz/project/keyboard/emotiondetection/EmotionDetector.kt:136 | the selected entry holds a maximum value and every earlier entry is strictly smaller: ties go to the earliest entry |
| EmotionDetector.FirstMaxUnique | app/src/main/java/kz/project/keyboard/emotiondetection/EmotionDetector.kt:136 | at most one index is the first maximum, so the selection is determined by the scores |
| EmotionDetector.MaxByOrNull | app/src/main/java/kz/project/keyboard/emotiondetection/EmotionDetector.kt:136 | null exactly on an empty map; otherwise an entry whose value is at least every entry's value, and it is the FIRST such entry (every earlier entry is strictly smaller) |
| EmotionDetector.GetHighestEmotion | app/src/main/java/kz/project/keyboard/emotiondetection/EmotionDetector.kt:132-146 | NEUTRAL on an empty map; any other answer is the key of the first-maximum entry, whose score is at least 0.15 |
| EmotionDetector.HighestEmotionThresholds | app/src/main/java/kz/project/keyboard/emotiondetection/EmotionDetector.kt:132-146 | for the first-maximum entry: SAD with score ≥ 0.15 gives SAD; otherwise its key when its score ≥ 0.25; otherwise NEUTRAL |
| EmotionDetector.EmptyScoresAreNeutral | app/src/main/java/kz/project/keyboard/emotiondetection/EmotionDetector.kt:141 | an empty score map gives NEUTRAL |
| EmotionDetector.DetectEmotion | app/src/main/java/kz/project/keyboard/emotiondetection/EmotionDetector.kt:10-19 | NEUTRAL when blendshapes are absent or no face is listed; any other answer is the key of the first-maximum entry among the first face's four emotion entries (characterised fully by DetectEmotionIsClassify) |
| EmotionDetector.NoFaceIsNeutral | app/src/main/java/kz/project/keyboard/emotiondetection/EmotionDetector.kt:11-13 | absent blendshapes or an empty face list give NEUTRAL |
| EmotionDetector.Classify | app/src/main/java/kz/project/keyboard/emotiondetection/EmotionDetector.kt:132-146 | reference classification from the four scores; a non-neutral answer implies the largest score is at least 0.8/3 |
| EmotionDetector.ScoreMapIsClassify | app/src/main/java/kz/project/keyboard/emotiondetection/EmotionDetector.kt:34-43 | arg-max plus thresholds over the five-entry map equal Classify of the four scores, for all real scores |
| EmotionDetector.HighestEmotionIsClassify | app/src/main/java/kz/project/keyboard/emotiondetection/EmotionDetector.kt:16-18 | for any face, the scorer's result is Classify of that face's four emotion scores |
| EmotionDetector.DetectEmotionIsClassify | app/src/main/java/kz/project/keyboard/emotiondetection/EmotionDetector.kt:10-19 | whenever a face is present, `detectAmotion` equals Classify of the first face's four scores |
| EmotionDetector.AllZeroLookup | app/src/main/java/kz/project/keyboard/emotiondetection/EmotionDetector.kt:24-27 | if every category of a face scores 0, every lookup reads 0 |
| EmotionDetector.ZeroScoresAreNeutral | app/src/main/java/kz/project/keyboard/emotiondetection/EmotionDetector.kt:35 | all-zero lookups make the four emotion scores 0 and the neutral score 0.8, and classify as NEUTRAL |
| EmotionDetector.AllZeroIsNeutral | app/src/main/java/kz/project/keyboard/emotiondetection/EmotionDetector.kt:35 | a face whose blendshapes are all 0 gives NEUTRAL |
| EmotionDetector.SadNeedsDecisiveScore | app/src/main/java/kz/project/keyboard/emotiondetection/EmotionDetector.kt:142 | a SAD result implies a face is present and its sadness score is at least 0.8/3 |
| EmotionDetector.EmotionNeedsDecisiveScore | app/src/main/java/kz/project/keyboard/emotiondetection/EmotionDetector.kt:143 | any non-neutral result implies the largest emotion score is at least 0.8/3, above both thresholds |
| EmotionDetector.TwoCategoryLookup | app/src/main/java/kz/project/keyboard/emotiondetection/EmotionDetector.kt:24-27 | a face listing two distinct names reads their scores, and 0 for every other name |
| EmotionDetector.SmileIsHappy | app/src/main/java/kz/project/keyboard/emotiondetection/EmotionDetector.kt:56-58 | both smile blendshapes at 0.9 and nothing else give HAPPY |
| EmotionDetector.FrownIsSad | app/src/main/java/kz/project/keyboard/emotiondetection/EmotionDetector.kt:61-90 | both frown blendshapes at 1.0 and nothing else give sadness 0.455 and the result SAD: the SAD branch is reachable as written |
| EmotionDetector.PulledMouthScores | app/src/main/java/kz/project/keyboard/emotiondetection/EmotionDetector.kt:61-90 | mouthLeft = mouthRight = 1 gives sadness 0.195 and 0 for the other three scores |
| EmotionDetector.PulledMouthIsNeutral | app/src/main/java/kz/project/keyboard/emotiondetection/EmotionDetector.kt:142 | as written, that face is reported NEUTRAL, although sadness is the top emotion and ≥ 0.15 |
| EmotionDetector.DetectEmotionCorrected | app/src/main/java/kz/project/keyboard/emotiondetection/EmotionDetector.kt:10-19 | corrected scorer: NEUTRAL without a face; any other answer is the first maximum of the four emotion entries, with a score of at least 0.15 |
| EmotionDetector.CorrectedThresholds | app/src/main/java/kz/project/keyboard/emotiondetection/EmotionDetector.kt:140-145 | corrected scorer: the two-tier threshold applied to the first maximum of the four emotion scores |
| EmotionDetector.SadTopOfFour | app/src/main/java/kz/project/keyboard/emotiondetection/EmotionDetector.kt:142 | corrected rule: a sadness score ≥ 0.15 that tops the four scores (strictly above happiness) gives SAD |
| EmotionDetector.PulledMouthIsSadWhenCorrected | app/src/main/java/kz/project/keyboard/emotiondetection/EmotionDetector.kt:142 | the corrected scorer reports SAD for the mouthLeft = mouthRight = 1 face |
| EmotionDetector.ScoreMapPrefixAgrees | app/src/main/java/kz/project/keyboard/emotiondetection/EmotionDetector.kt:136-145 | once the largest emotion score reaches 0.8/3, leaving out the neutral entry changes nothing |
| EmotionDetector.CorrectedAgreesOnDecisiveScores | app/src/main/java/kz/project/keyboard/emotiondetection/EmotionDetector.kt:10-19 | the corrected and as-written scorers agree on every face whose largest score reaches 0.8/3 |
| SuggestionsProvider.GetEmojiForEmotion | app/src/main/java/kz/project/keyboard/SuggestionsProvider.kt:14-15 | total lookup: the empty list exactly for NEUTRAL; five pairwise-distinct emoji for each other emotion |
| SuggestionsProvider.TableKeys | app/src/main/java/kz/project/keyboard/SuggestionsProvider.kt:7-12 | the table has entries for exactly HAPPY, SAD, SURPRISED and ANGRY |
| SuggestionsProvider.ListsDistinct | app/src/main/java/kz/project/keyboard/SuggestionsProvider.kt:8-11 | each of the four lists holds five different emoji |
| SuggestionsProvider.SuggestionsDisjoint | app/src/main/java/kz/project/keyboard/SuggestionsProvider.kt:8-11 | no emoji is suggested for two different emotions |
| SuggestionsProvider.SuggestionsAreSingleCodePoints | app/src/main/java/kz/project/keyboard/SuggestionsProvider.kt:8-11 | every suggestion is a single code point |
| KeyboardLanguageConfig.CharacterKeys | app/src/main/java/kz/project/keyboard/model/KeyboardLanguageConfig.kt:15 | one `Key.Character` per character, in order, each holding that one character |
| KeyboardLanguageConfig.UpperCase | app/src/main/java/kz/project/keyboard/model/KeyboardLanguageConfig.kt:23 | 'a'..'z' map into 'A'..'Z', 32 code points lower; every other character is kept |
| KeyboardLanguageConfig.CharacterKeysShifted | app/src/main/java/kz/project/keyboard/model/KeyboardLanguageConfig.kt:22-28 | keys made from an upper-cased row are the shifted forms of the plain row's keys |
| KeyboardLanguageConfig.EnglishIdentity | app/src/main/java/kz/project/keyboard/model/KeyboardLanguageConfig.kt:11-12 | English has code "en" and name "EN" |
| KeyboardLanguageConfig.EnglishShape | app/src/main/java/kz/project/keyboard/model/KeyboardLanguageConfig.kt:13-29 | three rows of 10, 9 and 7 keys; the shifted layout has the same shape |
| KeyboardLanguageConfig.EnglishSingleCharacters | app/src/main/java/kz/project/keyboard/model/KeyboardLanguageConfig.kt:14-28 | every plain and shifted key is a character key holding one character |
| KeyboardLanguageConfig.EnglishShiftedIsUpperCase | app/src/main/java/kz/project/keyboard/model/KeyboardLanguageConfig.kt:22-28 | each shifted key is the upper-case form of the plain key at the same row and column |
| KeyboardLanguageManager.GetString | app/src/main/java/kz/project/keyboard/model/KeyboardLanguageManager.kt:20 | the stored value when the key is present, the default otherwise |
| KeyboardLanguageManager.SavedLanguageCode | app/src/main/java/kz/project/keyboard/model/KeyboardLanguageManager.kt:20 | the saved code when "selected_language" is present, otherwise English's code "en" |
| KeyboardLanguageManager.PutString | app/src/main/java/kz/project/keyboard/model/KeyboardLanguageManager.kt:28-30 | the written key now reads the new value; every other key keeps its presence and its value |
| KeyboardLanguageManager.IndexOfFirst | app/src/main/java/kz/project/keyboard/model/KeyboardLanguageManager.kt:21-23 | −1 exactly when no code matches; otherwise a matching position with no match before it |
| KeyboardLanguageManager.RestoredIndex | app/src/main/java/kz/project/keyboard/model/KeyboardLanguageManager.kt:19-24 | an index in range: the first language whose code is the saved code (English's when none is saved), or 0 when none matches |
| KeyboardLanguageManager.NothingSavedRestoresEnglish | app/src/main/java/kz/project/keyboard/model/KeyboardLanguageManager.kt:20 | with nothing saved, the restored language has code "en" and comes no later than English |
| KeyboardLanguageManager.NextIndex | app/src/main/java/kz/project/keyboard/model/KeyboardLanguageManager.kt:27 | the cyclic successor: in range, one more than before, or 0 after the last language |
| KeyboardLanguageManager.SwitchedIndex | app/src/main/java/kz/project/keyboard/model/KeyboardLanguageManager.kt:27 | the index after k switches stays in range (its arithmetic is fixed by the three lemmas below) |
| KeyboardLanguageManager.SwitchedIndexAdvances | app/src/main/java/kz/project/keyboard/model/KeyboardLanguageManager.kt:27 | before wrapping, k switches advance the index by exactly k |
| KeyboardLanguageManager.SwitchedIndexCompose | app/src/main/java/kz/project/keyboard/model/KeyboardLanguageManager.kt:27 | a + b switches are a switches followed by b switches |
| KeyboardLanguageManager.FullCycleReturns | app/src/main/java/kz/project/keyboard/model/KeyboardLanguageManager.kt:27 | switching as many times as there are languages returns to the starting index |
| KeyboardLanguageManager.SwitchingIsPeriodic | app/src/main/java/kz/project/keyboard/model/KeyboardLanguageManager.kt:27 | the index after k + size switches equals the index after k switches |
| KeyboardLanguageManager.SaveThenRestoreCode | app/src/main/java/kz/project/keyboard/model/KeyboardLanguageManager.kt:19-30 | for any language list, restoring from a store that saved a language's code gives a language with that code, at or before its index |
| KeyboardLanguageManager.SaveThenRestore | app/src/main/java/kz/project/keyboard/model/KeyboardLanguageManager.kt:19-30 | if codes are distinct, saving a language's code and restoring from that store gives back its index |
| KeyboardLanguageManager.KeyboardLanguageManager.CurrentLanguage | app/src/main/java/kz/project/keyboard/model/KeyboardLanguageManager.kt:16-17 | the current language is the list entry at the current index, which is in range |
| KeyboardLanguageManager.KeyboardLanguageManager.constructor | app/src/main/java/kz/project/keyboard/model/KeyboardLanguageManager.kt:19-24 | starts valid, on the restored index, with the store unchanged |
| KeyboardLanguageManager.KeyboardLanguageManager.SwitchToNextLanguage | app/src/main/java/kz/project/keyboard/model/KeyboardLanguageManager.kt:26-31 | keeps the index in range; the index becomes (old + 1) mod size; the store gains "selected_language" = the new language's code, and nothing else changes |
| KeyboardLanguageManager.SwitchSurvivesRestart | app/src/main/java/kz/project/keyboard/model/KeyboardLanguageManager.kt:19-31 | a switch moves the index to its cyclic successor; a fresh manager built from the resulting store (same list, same store) starts on a language with the code switched to, and with distinct codes on the same index |
| KeyboardLanguageManager.SwitchFullCycle | app/src/main/java/kz/project/keyboard/model/KeyboardLanguageManager.kt:26-31 | calling switchToNextLanguage once per language leaves the manager on its starting index, with that language's code saved |

## Left out

- Floating point: every score is an exact real. The 32-bit float rounding of the source is not modelled.
- The debug log call in `getHighestEmotion` is a logging side effect and is not modelled.
- The face-landmarker result is reduced to its optional list of per-face blendshape lists. Landmarks and everything else it carries are not read by the scorer.
- The Emotion enum's source file is not part of this model. Its five values are declared from their uses.
- The `Russian` configuration is not part of this model. The language list is a constructor parameter, required to be non-empty, as the source's fixed two-entry list is.
- SaveThenRestore, and the index equality of SwitchSurvivesRestart: stated only for lists whose language codes are distinct. Russian's code is not known here; SaveThenRestoreCode gives the code-level round trip for every list.
- The SharedPreferences backend is an abstract map field. Disk persistence, the asynchronous commit of `edit`, and other apps' access are not modelled. The constructor takes the store's contents as a parameter, and the Android `Context` is not modelled.
- The Compose state that backs the current index is an ordinary field. Its change notifications to the UI are not modelled.
- Camera frame capture and the asynchronous landmarker calls (CameraViewModel.kt) are not modelled. They are foreign library calls and callbacks on other threads.
- The 2000 ms debounce of detected emotions and the emoji commit path (KeyboardService.kt) are not modelled. They are library timing operators and I/O.
- Drawing and UI: OverlayView.kt, KeyboardLayout.kt, KeyButton.kt, CameraLayout.kt and MainActivity.kt. They only render.
- Key.kt is a plain datatype with no behaviour. It is declared, and the layout lemmas use it.

## Findings

| source | as written | input that shows it | evidently intended | confidence | as-written member | corrected member |
|---|---|---|---|---|---|---|
| app/src/main/java/kz/project/keyboard/emotiondetection/EmotionDetector.kt:142 | The neutral score max(0, 0.8 − 2m) takes part in the arg-max, so it outranks every emotion whose score is below 0.8/3. The lowered 0.15 SAD threshold (and the 0.25 threshold) therefore never decides. | A face with mouthLeft = mouthRight = 1.0 and nothing else: sadness 0.195 ≥ 0.15 tops the emotions, neutral is 0.41, the result is NEUTRAL. | A sadness score of at least 0.15 that tops the four emotion scores gives SAD, with NEUTRAL as the fallback when the top emotion misses its threshold. | low: the fix is one reading of the intent; not executed | EmotionDetector.PulledMouthIsNeutral | EmotionDetector.PulledMouthIsSadWhenCorrected |

/** The static emotion-to-emoji suggestion table shown above the keyboard (SuggestionsProvider). */
module SuggestionsProvider {
  import opened EmotionModel

  /** No two entries of a suggestion list are equal. */
  predicate Distinct(s: seq<string>)
  {
    forall i, j :: 0 <= i < j < |s| ==> s[i] != s[j]
  }

  /** `emojiSuggestions`: five emoji per emotion, mildest first; NEUTRAL has no entry. */
  const EmojiSuggestions: map<Emotion, seq<string>> :=
    map[HAPPY := HappyEmoji, SAD := SadEmoji, SURPRISED := SurprisedEmoji, ANGRY := AngryEmoji]

  const HappyEmoji: seq<string> := ["\U{1F642}", "\U{1F60A}", "\U{1F604}", "\U{1F606}", "\U{1F929}"]
  const SadEmoji: seq<string> := ["\U{1F641}", "\U{1F61F}", "\U{1F622}", "\U{1F62B}", "\U{1F62D}"]
  const SurprisedEmoji: seq<string> := ["\U{1F62F}", "\U{1F62E}", "\U{1F632}", "\U{1F92F}", "\U{1F631}"]
  const AngryEmoji: seq<string> := ["\U{1F620}", "\U{1F621}", "\U{1F92C}", "\U{1F624}", "\U{1F47F}"]

  /** A list of one-character strings whose characters differ pairwise is Distinct. */
  lemma DistinctSingles(s: seq<string>)
    requires forall i :: 0 <= i < |s| ==> |s[i]| == 1
    requires forall i, j :: 0 <= i < j < |s| ==> s[i][0] != s[j][0]
    ensures Distinct(s)
  {
  }

  /** Each of the four lists holds five different emoji. */
  lemma ListsDistinct()
    ensures Distinct(HappyEmoji) && Distinct(SadEmoji) && Distinct(SurprisedEmoji) && Distinct(AngryEmoji)
  {
  }

  /** `getEmojiForEmotion`: total lookup; an emotion without an entry gets the empty list. */
  function GetEmojiForEmotion(emotion: Emotion): (r: seq<string>)
    ensures emotion == NEUTRAL <==> r == []
    ensures emotion != NEUTRAL ==> |r| == 5 && Distinct(r)
    ensures emotion in EmojiSuggestions ==> r == EmojiSuggestions[emotion]
  {
    ListsDistinct();
    if emotion in EmojiSuggestions then EmojiSuggestions[emotion]
    else
      assert emotion != HAPPY && emotion != SAD && emotion != SURPRISED && emotion != ANGRY;
      []
  }

  /** Exactly the four non-neutral emotions have a table entry. */
  lemma TableKeys()
    ensures EmojiSuggestions.Keys == {HAPPY, SAD, SURPRISED, ANGRY}
  {
  }

  /** No emoji is suggested for two different emotions. */
  lemma SuggestionsDisjoint(e1: Emotion, e2: Emotion, i: nat, j: nat)
    requires e1 != e2
    requires i < |GetEmojiForEmotion(e1)| && j < |GetEmojiForEmotion(e2)|
    ensures GetEmojiForEmotion(e1)[i] != GetEmojiForEmotion(e2)[j]
  {
    assert GetEmojiForEmotion(e1)[i][0] != GetEmojiForEmotion(e2)[j][0];
  }

  /** Every suggestion is a single code point. */
  lemma SuggestionsAreSingleCodePoints(e: Emotion, i: nat)
    requires i < |GetEmojiForEmotion(e)|
    ensures |GetEmojiForEmotion(e)[i]| == 1
  {
  }
}

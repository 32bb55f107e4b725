/**
 * Which keyboard language is active, and its persistence in a key-value store
 * (KeyboardLanguageManager). The Android SharedPreferences file "keyboard_prefs"
 * is modelled as a map from keys to string values.
 */
module KeyboardLanguageManager {
  import opened KeyboardLanguageConfig

  /** The preference key under which the selected language code is stored. */
  const SelectedLanguageKey: string := "selected_language"

  /** `getString(key, default)`: the stored value, or `default` when the key is absent. */
  function GetString(prefs: map<string, string>, key: string, default: string): (v: string)
    ensures key in prefs ==> v == prefs[key]
    ensures key !in prefs ==> v == default
  {
    if key in prefs then prefs[key] else default
  }

  /** `edit { putString(key, value) }`: `key` now maps to `value`; every other entry is kept. */
  function PutString(prefs: map<string, string>, key: string, value: string): (r: map<string, string>)
    ensures r.Keys == prefs.Keys + {key}
    ensures GetString(r, key, "") == value
    ensures forall k :: k != key ==> (k in r <==> k in prefs) && (k in prefs ==> r[k] == prefs[k])
  {
    prefs[key := value]
  }

  /** `indexOfFirst { it.code == code }`: the first position whose code matches, or -1 when none does. */
  function IndexOfFirst(languages: seq<KeyboardLanguageConfig>, code: string): (r: int)
    ensures -1 <= r < |languages|
    ensures r == -1 <==> forall i :: 0 <= i < |languages| ==> languages[i].code != code
    ensures r >= 0 ==> languages[r].code == code
    ensures r >= 0 ==> forall i :: 0 <= i < r ==> languages[i].code != code
  {
    if languages == [] then -1
    else if languages[0].code == code then 0
    else
      var rest := IndexOfFirst(languages[1..], code);
      if rest == -1 then -1 else rest + 1
  }

  /** The language code `init` reads back: the saved one, or English's when nothing is saved. */
  function SavedLanguageCode(prefs: map<string, string>): (code: string)
    ensures SelectedLanguageKey !in prefs ==> code == "en"
    ensures SelectedLanguageKey in prefs ==> code == prefs[SelectedLanguageKey]
  {
    GetString(prefs, SelectedLanguageKey, English.code)
  }

  /** The index `init` restores: the first language whose code is the saved code, or 0 if none is. */
  function RestoredIndex(languages: seq<KeyboardLanguageConfig>, prefs: map<string, string>): (i: nat)
    requires |languages| > 0
    ensures i < |languages|
    ensures (exists j :: 0 <= j < |languages| && languages[j].code == SavedLanguageCode(prefs)) ==>
      languages[i].code == SavedLanguageCode(prefs)
      && forall j :: 0 <= j < i ==> languages[j].code != SavedLanguageCode(prefs)
    ensures (forall j :: 0 <= j < |languages| ==> languages[j].code != SavedLanguageCode(prefs)) ==> i == 0
  {
    var found := IndexOfFirst(languages, SavedLanguageCode(prefs));
    if found >= 0 then found else 0
  }

  /** With nothing saved, the restored index is English's first position in the list. */
  lemma NothingSavedRestoresEnglish(languages: seq<KeyboardLanguageConfig>, prefs: map<string, string>, e: nat)
    requires SelectedLanguageKey !in prefs
    requires e < |languages| && languages[e] == English
    ensures languages[RestoredIndex(languages, prefs)].code == "en"
    ensures RestoredIndex(languages, prefs) <= e
  {
  }

  /** `(index + 1) % size`: the cyclic successor of a language index. */
  function NextIndex(i: nat, size: nat): (j: nat)
    requires size > 0
    ensures j < size
    ensures i + 1 < size ==> j == i + 1
    ensures i + 1 == size ==> j == 0
  {
    (i + 1) % size
  }

  /** The index after `k` successive switches from index `i`. */
  function SwitchedIndex(i: nat, size: nat, k: nat): (j: nat)
    requires i < size
    ensures j < size
  {
    if k == 0 then i else NextIndex(SwitchedIndex(i, size, k - 1), size)
  }

  /** Before wrapping around, `k` switches advance the index by exactly `k`. */
  lemma {:induction false} SwitchedIndexAdvances(i: nat, size: nat, k: nat)
    requires i + k < size
    ensures SwitchedIndex(i, size, k) == i + k
  {
    if k > 0 {
      SwitchedIndexAdvances(i, size, k - 1);
    }
  }

  /** Switching `a + b` times is switching `a` times and then `b` times. */
  lemma {:induction false} SwitchedIndexCompose(i: nat, size: nat, a: nat, b: nat)
    requires i < size
    ensures SwitchedIndex(i, size, a + b) == SwitchedIndex(SwitchedIndex(i, size, a), size, b)
  {
    if b > 0 {
      SwitchedIndexCompose(i, size, a, b - 1);
    }
  }

  /** Switching once per language comes back to the starting language. */
  lemma FullCycleReturns(i: nat, size: nat)
    requires i < size
    ensures SwitchedIndex(i, size, size) == i
  {
    SwitchedIndexAdvances(i, size, size - 1 - i);
    assert SwitchedIndex(i, size, size - i) == 0;
    SwitchedIndexCompose(i, size, size - i, i);
    if i > 0 {
      SwitchedIndexAdvances(0, size, i);
    }
  }

  /** The index sequence repeats with period equal to the number of languages. */
  lemma SwitchingIsPeriodic(i: nat, size: nat, k: nat)
    requires i < size
    ensures SwitchedIndex(i, size, k + size) == SwitchedIndex(i, size, k)
  {
    SwitchedIndexCompose(i, size, size, k);
    FullCycleReturns(i, size);
    assert k + size == size + k;
  }

  /** Distinct language codes: each code names one language. */
  ghost predicate DistinctCodes(languages: seq<KeyboardLanguageConfig>)
  {
    forall i, j :: 0 <= i < j < |languages| ==> languages[i].code != languages[j].code
  }

  /** Saving a language's code and restoring from the result gives that language back,
      whatever else the store holds, provided the codes are distinct. */
  lemma SaveThenRestore(languages: seq<KeyboardLanguageConfig>, prefs: map<string, string>, i: nat)
    requires i < |languages|
    requires DistinctCodes(languages)
    ensures RestoredIndex(languages, PutString(prefs, SelectedLanguageKey, languages[i].code)) == i
  {
  }

  /** For any language list: restoring from a store that saved a language's code gives a language with
      that code, found no later than the saved one. */
  lemma SaveThenRestoreCode(languages: seq<KeyboardLanguageConfig>, prefs: map<string, string>, i: nat)
    requires i < |languages|
    ensures var r := RestoredIndex(languages, PutString(prefs, SelectedLanguageKey, languages[i].code));
      languages[r].code == languages[i].code && r <= i
  {
  }

  class KeyboardLanguageManager {
    const allLanguages: seq<KeyboardLanguageConfig>
    var sharedPrefs: map<string, string>
    var currentLanguageIndex: nat

    /** The index always names a language of the fixed, non-empty list. */
    ghost predicate Valid()
      reads this
    {
      |allLanguages| > 0 && currentLanguageIndex < |allLanguages|
    }

    /** `currentLanguage`: the language at the current index. */
    function CurrentLanguage(): (lang: KeyboardLanguageConfig)
      reads this
      requires Valid()
      ensures lang in allLanguages
      ensures lang == allLanguages[currentLanguageIndex]
    {
      allLanguages[currentLanguageIndex]
    }

    /** `init`: restore the saved language, falling back to the first in the list. */
    constructor (languages: seq<KeyboardLanguageConfig>, prefs: map<string, string>)
      requires |languages| > 0
      ensures Valid()
      ensures allLanguages == languages && sharedPrefs == prefs
      ensures currentLanguageIndex == RestoredIndex(languages, prefs)
    {
      allLanguages := languages;
      sharedPrefs := prefs;
      var found := IndexOfFirst(languages, GetString(prefs, SelectedLanguageKey, English.code));
      currentLanguageIndex := if found >= 0 then found else 0;
    }

    /** `switchToNextLanguage`: advance cyclically and record the new language's code. */
    method SwitchToNextLanguage()
      requires Valid()
      modifies this
      ensures Valid()
      ensures currentLanguageIndex == NextIndex(old(currentLanguageIndex), |allLanguages|)
      ensures sharedPrefs == PutString(old(sharedPrefs), SelectedLanguageKey, CurrentLanguage().code)
    {
      currentLanguageIndex := (currentLanguageIndex + 1) % |allLanguages|;
      sharedPrefs := sharedPrefs[SelectedLanguageKey := allLanguages[currentLanguageIndex].code];
    }
  }

  /** After a switch, a manager created from the same store starts on the language switched to. */
  method SwitchSurvivesRestart(m: KeyboardLanguageManager) returns (restarted: KeyboardLanguageManager)
    requires m.Valid()
    modifies m
    ensures m.Valid() && restarted.Valid()
    ensures m.currentLanguageIndex == NextIndex(old(m.currentLanguageIndex), |m.allLanguages|)
    ensures fresh(restarted) && restarted.sharedPrefs == m.sharedPrefs
    ensures restarted.allLanguages == m.allLanguages
    ensures restarted.CurrentLanguage().code == m.CurrentLanguage().code
    ensures DistinctCodes(m.allLanguages) ==> restarted.currentLanguageIndex == m.currentLanguageIndex
  {
    m.SwitchToNextLanguage();
    SaveThenRestoreCode(m.allLanguages, old(m.sharedPrefs), m.currentLanguageIndex);
    if DistinctCodes(m.allLanguages) {
      SaveThenRestore(m.allLanguages, old(m.sharedPrefs), m.currentLanguageIndex);
    }
    restarted := new KeyboardLanguageManager(m.allLanguages, m.sharedPrefs);
  }

  /** Switching once per language returns the manager to the language it started on, and the store
      then holds that language's code. */
  method SwitchFullCycle(m: KeyboardLanguageManager)
    requires m.Valid()
    modifies m
    ensures m.Valid()
    ensures m.currentLanguageIndex == old(m.currentLanguageIndex)
    ensures m.sharedPrefs == PutString(old(m.sharedPrefs), SelectedLanguageKey, m.CurrentLanguage().code)
  {
    ghost var i0 := m.currentLanguageIndex;
    var n := |m.allLanguages|;
    var j := 0;
    while j < n
      invariant 0 <= j <= n
      invariant m.Valid() && |m.allLanguages| == n
      invariant m.currentLanguageIndex == SwitchedIndex(i0, n, j)
      invariant j == 0 ==> m.sharedPrefs == old(m.sharedPrefs)
      invariant j > 0 ==> m.sharedPrefs == PutString(old(m.sharedPrefs), SelectedLanguageKey, m.CurrentLanguage().code)
    {
      m.SwitchToNextLanguage();
      j := j + 1;
    }
    FullCycleReturns(i0, n);
  }
}

/**
 * The autocomplete content script: on every `input` event, when the
 * lower-cased value ends with one of four trigger words, one random ending is
 * appended to the value. Its module-level `enabled` and `chaosLevel` are the
 * fields of `ContentScript`; the random pick is a draw in [0, 1).
 */
module Autocomplete {
  import Wrappers
  import opened Text
  import Config
  import Dom

  const Triggers: seq<string> := ["hello", "thanks", "regards", "best"]
  const Endings: seq<string> := ["!", "...", " :)", "~", " (sent from chaos)"]

  /** `randomEnding`. */
  function RandomEnding(pick: real): (e: string)
    requires 0.0 <= pick < 1.0
    ensures e in Endings
  {
    Endings[PickIndex(pick, |Endings|)]
  }

  /** Some trigger is a suffix of `lowerValue`. */
  predicate TriggerMatches(lowerValue: string) {
    exists i :: 0 <= i < |Triggers| && EndsWith(lowerValue, Triggers[i])
  }

  /**
   * The value after one `handleAutocomplete` call: unchanged, or the old
   * value, verbatim, followed by exactly one ending; changed exactly when the
   * script is on and the lower-cased, untrimmed value ends with a trigger.
   */
  function Autocompleted(enabled: bool, chaosLevel: int, value: string, pick: real): (r: string)
    requires 0.0 <= pick < 1.0
    ensures r == value || r == value + RandomEnding(pick)
    ensures r != value <==> enabled && chaosLevel != 0 && TriggerMatches(Lower(value))
  {
    if enabled && chaosLevel != 0 && TriggerMatches(Lower(value)) then value + RandomEnding(pick) else value
  }

  /** When the script is off, or the level is 0, nothing is ever appended. */
  lemma DisabledNeverMutates(enabled: bool, chaosLevel: int, value: string, pick: real)
    requires 0.0 <= pick < 1.0
    requires !enabled || chaosLevel == 0
    ensures Autocompleted(enabled, chaosLevel, value, pick) == value
  {
  }

  /** A non-empty `t` is not a suffix of a text whose last character differs from `t`'s. */
  lemma {:induction false} LastDiffers(s: string, t: string)
    requires |t| > 0 && (|s| == 0 || s[|s| - 1] != t[|t| - 1])
    ensures !EndsWith(s, t)
  {
    if |t| <= |s| {
      assert s[|s| - |t|..][|t| - 1] == s[|s| - 1];
    }
  }

  /** No text followed by an ending ends with a trigger: the last characters differ. */
  lemma {:induction false} EndingNeverTriggers(value: string, e: string)
    requires e in Endings
    ensures !TriggerMatches(Lower(value + e))
  {
    var s := Lower(value + e);
    LowerConcat(value, e);
    assert s[|s| - 1] == LowerChar(e[|e| - 1]);
    assert e[|e| - 1] in {'!', '.', ')', '~'};
    forall i | 0 <= i < |Triggers| ensures !EndsWith(s, Triggers[i]) {
      assert Triggers[i][|Triggers[i]| - 1] in {'o', 's', 't'};
      LastDiffers(s, Triggers[i]);
    }
  }

  /** Running the handler on its own output changes nothing, whatever the draws. */
  lemma {:induction false} NoRetrigger(enabled: bool, chaosLevel: int, value: string, pick1: real, pick2: real)
    requires 0.0 <= pick1 < 1.0 && 0.0 <= pick2 < 1.0
    ensures var once := Autocompleted(enabled, chaosLevel, value, pick1);
            Autocompleted(enabled, chaosLevel, once, pick2) == once
  {
    var once := Autocompleted(enabled, chaosLevel, value, pick1);
    if once != value {
      EndingNeverTriggers(value, RandomEnding(pick1));
    }
  }

  /** The match is on the untrimmed value: a trailing space defeats it. */
  lemma TrailingSpaceDoesNotTrigger(pick: real)
    requires 0.0 <= pick < 1.0
    ensures Autocompleted(true, 3, "hello ", pick) == "hello "
  {
    var s := Lower("hello ");
    assert s[|s| - 1] == ' ';
    forall i | 0 <= i < |Triggers| ensures !EndsWith(s, Triggers[i]) {
      LastDiffers(s, Triggers[i]);
    }
  }

  /** The match ignores case, and the text keeps its original case. */
  lemma MatchIgnoresCase(pick: real)
    requires 0.0 <= pick < 1.0
    ensures Autocompleted(true, 3, "Well HELLO", pick) == "Well HELLO" + RandomEnding(pick)
  {
    assert EndsWith(Lower("Well HELLO"), Triggers[0]);
  }

  /**
   * `toLowerCase` maps the KELVIN SIGN to `k`, so "than\u212As" ends with
   * "thanks" once lowered and gets an ending.
   */
  lemma KelvinSignTriggers(pick: real)
    requires 0.0 <= pick < 1.0
    ensures var v := "than" + [KelvinSign] + "s";
            Autocompleted(true, 3, v, pick) == v + RandomEnding(pick)
  {
    var v := "than" + [KelvinSign] + "s";
    assert Lower(v) == "thanks";
    assert EndsWith(Lower(v), Triggers[1]);
  }

  /** With the intended enabling flag, a level above 0 and a trigger at the end, an ending is appended. */
  lemma IntendedConfigTriggers(config: Config.ChaosConfig, pick: real)
    requires 0.0 <= pick < 1.0
    requires config.features.chaoticAutocomplete && config.chaosLevel != 0
    ensures Autocompleted(config.features.chaoticAutocomplete, config.chaosLevel, "thanks", pick) != "thanks"
  {
    assert EndsWith(Lower("thanks"), Triggers[1]);
  }

  class ContentScript {
    var enabled: bool
    var chaosLevel: int

    constructor ()
      ensures enabled && chaosLevel == 0
    {
      enabled := true;
      chaosLevel := 0;
    }

    /**
     * `handleAutocomplete`: the first trigger the lower-cased value ends with
     * appends one ending to the element's value. The `cfg.llmApiKey` guard
     * reads a key a `ChaosConfig` never has, so the local `randomEnding`
     * branch is the one taken.
     */
    method HandleAutocomplete(input: Dom.InputElement, pick: real)
      requires 0.0 <= pick < 1.0
      requires input.Valid()
      modifies input`value, input`selectionStart
      ensures input.Valid()
      ensures input.value == Autocompleted(enabled, chaosLevel, old(input.value), pick)
      ensures input.selectionStart ==
        if old(input.selectionStart).Some? && input.value != old(input.value) then Wrappers.Some(|input.value|)
        else old(input.selectionStart)
    {
      if !enabled || chaosLevel == 0 {
        return;
      }
      var val := Lower(input.value);
      var i := 0;
      while i < |Triggers|
        invariant 0 <= i <= |Triggers|
        invariant forall j :: 0 <= j < i ==> !EndsWith(val, Triggers[j])
        invariant input.value == old(input.value) && input.Valid()
        invariant input.selectionStart == old(input.selectionStart)
      {
        if EndsWith(val, Triggers[i]) {
          input.SetValue(input.value + RandomEnding(pick));
          break;
        }
        i := i + 1;
      }
    }

    /**
     * `updateConfig` as written: `enabled` takes `cfg.autocomplete`, a key
     * a `ChaosConfig` does not have, so it becomes `undefined` (false).
     */
    method UpdateConfig(config: Config.ChaosConfig)
      modifies this
      ensures !enabled
      ensures chaosLevel == config.chaosLevel
    {
      enabled := false;
      chaosLevel := config.chaosLevel;
    }

    /** `updateConfig` as evidently intended: the `chaoticAutocomplete` feature flag. */
    method UpdateConfigIntended(config: Config.ChaosConfig)
      modifies this
      ensures enabled == config.features.chaoticAutocomplete
      ensures chaosLevel == config.chaosLevel
    {
      enabled := config.features.chaoticAutocomplete;
      chaosLevel := config.chaosLevel;
    }
  }

  /**
   * A config load as written followed by an `input` event: whatever the
   * config and the field hold, the value is never changed.
   */
  method AsWrittenNeverAutocompletes(script: ContentScript, config: Config.ChaosConfig,
                                     input: Dom.InputElement, pick: real)
    requires 0.0 <= pick < 1.0
    requires input.Valid()
    modifies script, input`value, input`selectionStart
    ensures input.Valid()
    ensures input.value == old(input.value)
  {
    script.UpdateConfig(config);
    script.HandleAutocomplete(input, pick);
  }

  /**
   * The same with the corrected config load: an ending is appended exactly
   * when the `chaoticAutocomplete` flag is on, the level is not 0 and the
   * lower-cased value ends with a trigger.
   */
  method IntendedAutocompletes(script: ContentScript, config: Config.ChaosConfig,
                               input: Dom.InputElement, pick: real)
    requires 0.0 <= pick < 1.0
    requires input.Valid()
    modifies script, input`value, input`selectionStart
    ensures input.Valid()
    ensures input.value == Autocompleted(config.features.chaoticAutocomplete, config.chaosLevel, old(input.value), pick)
    ensures input.value != old(input.value) <==>
      config.features.chaoticAutocomplete && config.chaosLevel != 0 && TriggerMatches(Lower(old(input.value)))
  {
    script.UpdateConfigIntended(config);
    script.HandleAutocomplete(input, pick);
  }
}

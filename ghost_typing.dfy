/**
 * The ghost-typing content script: some time after an edit in a text field,
 * with a small probability growing with the chaos level, one random
 * character is inserted at the caret and the caret moves past it. The
 * script's module-level `enabled` and `chaosLevel` are the fields of
 * `ContentScript`; each `Math.random()` call is a draw in [0, 1).
 */
module GhostTyping {
  import opened Wrappers
  import opened Text
  import Config
  import Dom

  const ChaosChars: string := "~!@#$%^&*()_+-=[]{}|;:,.<>?"
  const Letters: string := "abcdefghijklmnopqrstuvwxyz"
  const BaseChance: real := 0.02
  /** Values longer than this are never changed. */
  const MaxLength: nat := 250

  /**
   * `getRandomChar`: above level 3, a chaos character when the first draw
   * is below 0.3; otherwise a lower-case letter.
   */
  function RandomChar(chaosLevel: int, gateDraw: real, pickDraw: real): (c: char)
    requires 0.0 <= gateDraw < 1.0 && 0.0 <= pickDraw < 1.0
    ensures c in Letters || c in ChaosChars
    ensures chaosLevel <= 3 ==> 'a' <= c <= 'z'
    ensures !('a' <= c <= 'z') ==> c in ChaosChars && chaosLevel > 3 && gateDraw < 0.3
    ensures c in ChaosChars <==> chaosLevel > 3 && gateDraw < 0.3
  {
    CharClasses();
    if chaosLevel > 3 && gateDraw < 0.3 then ChaosChars[PickIndex(pickDraw, |ChaosChars|)]
    else Letters[PickIndex(pickDraw, |Letters|)]
  }

  /** The letters are the lower-case ASCII letters; no chaos character is one. */
  lemma CharClasses()
    ensures |Letters| == 26 && |ChaosChars| == 27
    ensures forall i :: 0 <= i < |Letters| ==> 'a' <= Letters[i] <= 'z'
    ensures forall i :: 0 <= i < |ChaosChars| ==> !('a' <= ChaosChars[i] <= 'z')
  {
  }

  /** `shouldInjectGhost`: the draw is below 0.02 * level / 5, that is level / 250. */
  function ShouldInjectGhost(chaosLevel: int, draw: real): (b: bool)
    requires 0.0 <= draw < 1.0
    ensures b ==> chaosLevel > 0
    ensures b <==> draw * 250.0 < chaosLevel as real
    ensures chaosLevel <= 5 && b ==> draw < BaseChance
  {
    draw < BaseChance * (chaosLevel as real / 5.0)
  }

  /**
   * `input.selectionStart || input.value.length`: the caret, except that a
   * missing caret and a caret at 0 both mean the end of the text.
   */
  function InsertPosition(caret: Option<nat>, length: nat): (p: nat)
    requires caret.Some? ==> caret.value <= length
    ensures p <= length
    ensures caret.Some? && caret.value > 0 ==> p == caret.value
    ensures caret.None? || caret.value == 0 ==> p == length
  {
    if caret.Some? && caret.value != 0 then caret.value else length
  }

  /** The new text and caret of an injection. */
  datatype Injection = Injection(text: string, caret: nat)

  /**
   * The effect of one `injectGhostChar` call on a value and caret: none when
   * a gate fails or the value is too long; otherwise the character from
   * `RandomChar` inserted at `InsertPosition`, the text on both sides kept,
   * and the caret just after it.
   */
  function GhostEdit(enabled: bool, chaosLevel: int, value: string, caret: Option<nat>,
                     injectDraw: real, gateDraw: real, pickDraw: real): (r: Option<Injection>)
    requires 0.0 <= injectDraw < 1.0 && 0.0 <= gateDraw < 1.0 && 0.0 <= pickDraw < 1.0
    requires caret.Some? ==> caret.value <= |value|
    ensures r.Some? <==> enabled && chaosLevel != 0 && ShouldInjectGhost(chaosLevel, injectDraw) && |value| <= MaxLength
  {
    if !enabled || chaosLevel == 0 || !ShouldInjectGhost(chaosLevel, injectDraw) then None
    else
      var p := InsertPosition(caret, |value|);
      var c := RandomChar(chaosLevel, gateDraw, pickDraw);
      if |value| > MaxLength then None
      else Some(Injection(value[..p] + [c] + value[p..], p + 1))
  }

  /**
   * What an injection is: the text before the insertion position kept, the
   * character of `RandomChar` at it, the rest of the text after it, and the
   * caret just past the new character.
   */
  lemma {:induction false} InjectionContents(enabled: bool, chaosLevel: int, value: string, caret: Option<nat>,
                                             injectDraw: real, gateDraw: real, pickDraw: real)
    requires 0.0 <= injectDraw < 1.0 && 0.0 <= gateDraw < 1.0 && 0.0 <= pickDraw < 1.0
    requires caret.Some? ==> caret.value <= |value|
    ensures var r := GhostEdit(enabled, chaosLevel, value, caret, injectDraw, gateDraw, pickDraw);
      var p := InsertPosition(caret, |value|);
      r.Some? ==>
        && |r.value.text| == |value| + 1
        && r.value.text[..p] == value[..p]
        && r.value.text[p] == RandomChar(chaosLevel, gateDraw, pickDraw)
        && r.value.text[p + 1..] == value[p..]
        && r.value.caret == p + 1
  {
    var r := GhostEdit(enabled, chaosLevel, value, caret, injectDraw, gateDraw, pickDraw);
    var p := InsertPosition(caret, |value|);
    if r.Some? {
      var c := RandomChar(chaosLevel, gateDraw, pickDraw);
      assert r.value.text == value[..p] + [c] + value[p..];
    }
  }

  /** An injection never produces more than 251 characters, and its caret is inside the text. */
  lemma {:induction false} InjectionBounds(enabled: bool, chaosLevel: int, value: string, caret: Option<nat>,
                                           injectDraw: real, gateDraw: real, pickDraw: real)
    requires 0.0 <= injectDraw < 1.0 && 0.0 <= gateDraw < 1.0 && 0.0 <= pickDraw < 1.0
    requires caret.Some? ==> caret.value <= |value|
    ensures var r := GhostEdit(enabled, chaosLevel, value, caret, injectDraw, gateDraw, pickDraw);
            r.Some? ==> |r.value.text| <= MaxLength + 1 && 0 < r.value.caret <= |r.value.text|
  {
    InjectionContents(enabled, chaosLevel, value, caret, injectDraw, gateDraw, pickDraw);
  }

  /** Removing the injected character gives back the original text. */
  lemma {:induction false} InjectionRemovable(enabled: bool, chaosLevel: int, value: string, caret: Option<nat>,
                                              injectDraw: real, gateDraw: real, pickDraw: real)
    requires 0.0 <= injectDraw < 1.0 && 0.0 <= gateDraw < 1.0 && 0.0 <= pickDraw < 1.0
    requires caret.Some? ==> caret.value <= |value|
    ensures var r := GhostEdit(enabled, chaosLevel, value, caret, injectDraw, gateDraw, pickDraw);
            r.Some? ==> r.value.text[..r.value.caret - 1] + r.value.text[r.value.caret..] == value
  {
    var r := GhostEdit(enabled, chaosLevel, value, caret, injectDraw, gateDraw, pickDraw);
    InjectionContents(enabled, chaosLevel, value, caret, injectDraw, gateDraw, pickDraw);
    if r.Some? {
      var p := InsertPosition(caret, |value|);
      assert value == value[..p] + value[p..];
    }
  }

  /** Up to level 3 the injected character is always a lower-case letter. */
  lemma {:induction false} LowLevelsInjectLetters(enabled: bool, chaosLevel: int, value: string, caret: Option<nat>,
                                                  injectDraw: real, gateDraw: real, pickDraw: real)
    requires 0.0 <= injectDraw < 1.0 && 0.0 <= gateDraw < 1.0 && 0.0 <= pickDraw < 1.0
    requires caret.Some? ==> caret.value <= |value|
    requires chaosLevel <= 3
    ensures var r := GhostEdit(enabled, chaosLevel, value, caret, injectDraw, gateDraw, pickDraw);
            r.Some? ==> 'a' <= r.value.text[r.value.caret - 1] <= 'z'
  {
    InjectionContents(enabled, chaosLevel, value, caret, injectDraw, gateDraw, pickDraw);
  }

  /** A caret at 0 is taken as the end: the character is appended, not prepended. */
  lemma CaretZeroAppends()
    ensures GhostEdit(true, 5, "abc", Some(0), 0.0, 0.5, 0.0) == Some(Injection("abca", 4))
  {
    assert RandomChar(5, 0.5, 0.0) == 'a';
    assert "abc"[..3] + ['a'] + "abc"[3..] == "abca";
  }

  /**
   * The filter of the delegated `input` listener: only INPUT and TEXTAREA
   * elements, and never a `password` or `credit-card` typed one.
   */
  predicate ShouldSchedule(tagName: string, fieldType: string) {
    (tagName == "INPUT" || tagName == "TEXTAREA") && fieldType != "password" && fieldType != "credit-card"
  }

  lemma SensitiveFieldsNeverScheduled(tagName: string, fieldType: string)
    requires fieldType == "password" || fieldType == "credit-card" || (tagName != "INPUT" && tagName != "TEXTAREA")
    ensures !ShouldSchedule(tagName, fieldType)
  {
  }

  /** Every other INPUT or TEXTAREA element is scheduled, whatever its type. */
  lemma OrdinaryFieldsScheduled(tagName: string, fieldType: string)
    requires tagName == "INPUT" || tagName == "TEXTAREA"
    requires fieldType != "password" && fieldType != "credit-card"
    ensures ShouldSchedule(tagName, fieldType)
  {
  }

  class ContentScript {
    var enabled: bool
    var chaosLevel: int

    constructor ()
      ensures enabled && chaosLevel == 0
    {
      enabled := true;
      chaosLevel := 0;
    }

    /**
     * `injectGhostChar`: applies `GhostEdit` to the element. Where the type
     * has no selection, `setSelectionRange` throws after the value was
     * written, so the caret stays absent and no `input` event is dispatched.
     */
    method InjectGhostChar(input: Dom.InputElement, injectDraw: real, gateDraw: real, pickDraw: real)
      requires 0.0 <= injectDraw < 1.0 && 0.0 <= gateDraw < 1.0 && 0.0 <= pickDraw < 1.0
      requires input.Valid()
      modifies input`value, input`selectionStart, input`inputEvents
      ensures input.Valid()
      ensures var e := GhostEdit(enabled, chaosLevel, old(input.value), old(input.selectionStart), injectDraw, gateDraw, pickDraw);
        && (e.None? ==> input.value == old(input.value) && input.selectionStart == old(input.selectionStart)
                        && input.inputEvents == old(input.inputEvents))
        && (e.Some? && old(input.selectionStart).Some? ==>
              input.value == e.value.text && input.selectionStart == Some(e.value.caret)
              && input.inputEvents == old(input.inputEvents) + 1)
        && (e.Some? && old(input.selectionStart).None? ==>
              input.value == e.value.text && input.selectionStart.None? && input.inputEvents == old(input.inputEvents))
    {
      ghost var e := GhostEdit(enabled, chaosLevel, input.value, input.selectionStart, injectDraw, gateDraw, pickDraw);
      if !enabled || chaosLevel == 0 || !ShouldInjectGhost(chaosLevel, injectDraw) {
        assert e.None?;
        return;
      }
      var pos := InsertPosition(input.selectionStart, |input.value|);
      var val := input.value;
      var c := RandomChar(chaosLevel, gateDraw, pickDraw);
      if |val| > MaxLength {
        assert e.None?;
        return;
      }
      var newValue := val[..pos] + [c] + val[pos..];
      assert e == Some(Injection(newValue, pos + 1));
      input.SetValue(newValue);
      var ok := input.SetSelectionRange(pos + 1);
      if ok {
        input.DispatchInput();
      }
    }

    /** `updateConfig`: the `ghostTyping` feature flag and the level. */
    method UpdateConfig(config: Config.ChaosConfig)
      modifies this
      ensures enabled == config.features.ghostTyping
      ensures chaosLevel == config.chaosLevel
    {
      enabled := config.features.ghostTyping;
      chaosLevel := config.chaosLevel;
    }
  }
}

/**
 * The phrase dictionary: its schema and the `DEFAULT_CHAOS_DICTIONARY`
 * constant. Keyed objects of the source are ordered lists of (key, value)
 * pairs, in the order the literal writes them.
 */
module Dictionary {
  import opened Wrappers
  import opened Text

  /** One trigger phrase's entry; `weight` and `chaosLevel` are optional. */
  datatype TriggerEntry = TriggerEntry(completions: seq<string>, weight: Option<real>, chaosLevel: Option<int>)

  datatype Transformations = Transformations(
    uppercase: Option<bool>,
    leetSpeak: Option<bool>,
    scramble: Option<bool>,
    stutter: Option<bool>)

  datatype Modifier = Modifier(
    prefixes: Option<seq<string>>,
    suffixes: Option<seq<string>>,
    transformations: Option<Transformations>)

  type PhraseTable = seq<(string, seq<string>)>

  datatype Contextual = Contextual(
    email: Option<PhraseTable>,
    social: Option<PhraseTable>,
    search: Option<PhraseTable>,
    chat: Option<PhraseTable>)

  datatype ChaosDictionary = ChaosDictionary(
    triggers: seq<(string, TriggerEntry)>,
    fallbackEndings: seq<string>,
    modifiers: map<int, Modifier>,
    contextual: Option<Contextual>)

  /** The documented default of a missing `weight`: 1. */
  function EffectiveWeight(e: TriggerEntry): (w: real)
    ensures e.weight.None? ==> w == 1.0
    ensures e.weight.Some? ==> w == e.weight.value
  {
    e.weight.GetOr(1.0)
  }

  /** The documented default of a missing minimum `chaosLevel`: 0. */
  function MinChaosLevel(e: TriggerEntry): (l: int)
    ensures e.chaosLevel.None? ==> l == 0
    ensures e.chaosLevel.Some? ==> l == e.chaosLevel.value
  {
    e.chaosLevel.GetOr(0)
  }

  const DefaultTriggers: seq<(string, TriggerEntry)> := [
    ("hello", TriggerEntry([
      " there, beautiful disaster!",
      " world... or is it?",
      " darkness my old friend",
      " from the void",
      " chaos incarnate"], Some(1.5), Some(0))),
    ("thanks", TriggerEntry([
      " but no thanks",
      " for the chaos",
      " to the void",
      " for nothing",
      " I guess?"], Some(1.2), None)),
    ("please", TriggerEntry([
      " don't",
      " chaos overlords",
      " help me escape",
      " make it stop",
      " end my suffering"], None, Some(2))),
    ("good", TriggerEntry([
      " grief!",
      " enough... NOT!",
      " vibes only... CHAOS!",
      "bye cruel world",
      " luck with that"], None, None)),
    ("how", TriggerEntry([
      " about no?",
      " wonderfully chaotic!",
      " delightfully wrong",
      " to summon demons",
      " did we get here?"], None, None)),
    ("what", TriggerEntry([
      " the actual chaos?!",
      " sorcery is this?",
      " dimension am I in?",
      " fresh hell?",
      " could go wrong?"], None, None)),
    ("i", TriggerEntry([
      " am confusion",
      " demand chaos",
      " reject reality",
      " have made a mistake",
      " regret everything"], None, None)),
    ("the", TriggerEntry([
      " chaos consumes all",
      " void stares back",
      " matrix glitches",
      " end is near",
      " simulation breaks"], None, Some(3)))
  ]

  const DefaultFallbackEndings: seq<string> := [
    "... but make it chaotic!",
    "... in the multiverse",
    "... according to Murphy's law",
    "... if you dare!",
    "... *glitch sounds*",
    "... ERROR 404: SANITY NOT FOUND",
    "... probably",
    "... or not",
    "... allegedly",
    "... *nervous laughter*"
  ]

  const DefaultModifiers: map<int, Modifier> := map[
    1 := Modifier(None, Some(["~", "..."]), None),
    2 := Modifier(Some(["uh, "]), Some(["...", " :)", " :("]), None),
    3 := Modifier(Some(["WAIT, ", "actually, "]), Some([" (probably)", " (maybe)", " *panics*"]),
                  Some(Transformations(None, None, None, Some(true)))),
    4 := Modifier(Some(["ERROR: ", "ALERT: "]), Some([" *SYSTEM FAILURE*", " [REDACTED]"]),
                  Some(Transformations(Some(true), None, Some(true), None))),
    5 := Modifier(Some(["₴₸Ɽ₳₦₲Ɇ ", "C̴H̴A̴O̴S̴ "]), Some([" ⚡⚡⚡", " 🌀💀🌀"]),
                  Some(Transformations(Some(true), Some(true), Some(true), None)))
  ]

  const DefaultContextual: Contextual := Contextual(
    Some([("regards", ["from the abyss", "from your sleep paralysis demon", "xoxo chaos"]),
          ("sincerely", ["insincerely", "with maximum chaos", "not really"])]),
    Some([("love", ["tolerate", "am confused by", "fear"]),
          ("happy", ["chaotic", "unhinged", "probably broken"])]),
    Some([("how to", ["how NOT to", "why you shouldn't", "the forbidden art of"])]),
    None)

  const DefaultChaosDictionary: ChaosDictionary :=
    ChaosDictionary(DefaultTriggers, DefaultFallbackEndings, DefaultModifiers, Some(DefaultContextual))

  /** Every trigger has exactly five completions, none of them empty. */
  lemma TriggerCompletions()
    ensures forall i :: 0 <= i < |DefaultChaosDictionary.triggers| ==>
      |DefaultChaosDictionary.triggers[i].1.completions| == 5
    ensures forall i, j :: 0 <= i < |DefaultChaosDictionary.triggers| && 0 <= j < 5 ==>
      |DefaultChaosDictionary.triggers[i].1.completions[j]| > 0
  {
  }

  /** Trigger keys are non-empty, lower-case and pairwise distinct. */
  lemma TriggerKeys()
    ensures forall i :: 0 <= i < |DefaultChaosDictionary.triggers| ==>
      |DefaultChaosDictionary.triggers[i].0| > 0 && IsLowerCase(DefaultChaosDictionary.triggers[i].0)
    ensures forall i, j :: 0 <= i < j < |DefaultChaosDictionary.triggers| ==>
      DefaultChaosDictionary.triggers[i].0 != DefaultChaosDictionary.triggers[j].0
  {
  }

  /** Effective minimum levels: all in [0, 5]; "please" needs 2, "the" 3, the rest 0. */
  lemma TriggerLevels()
    ensures forall i :: 0 <= i < |DefaultChaosDictionary.triggers| ==>
      0 <= MinChaosLevel(DefaultChaosDictionary.triggers[i].1) <= 5
    ensures forall i :: 0 <= i < |DefaultChaosDictionary.triggers| ==>
      MinChaosLevel(DefaultChaosDictionary.triggers[i].1) ==
        if DefaultChaosDictionary.triggers[i].0 == "please" then 2
        else if DefaultChaosDictionary.triggers[i].0 == "the" then 3
        else 0
    ensures forall i :: 0 <= i < |DefaultChaosDictionary.triggers| ==>
      EffectiveWeight(DefaultChaosDictionary.triggers[i].1) >= 1.0
  {
  }

  /** Ten fallback endings, each beginning with "...". */
  lemma FallbackEndings()
    ensures |DefaultChaosDictionary.fallbackEndings| == 10
    ensures forall e :: e in DefaultChaosDictionary.fallbackEndings ==> |e| > 3 && e[..3] == "..."
  {
  }

  /** Modifiers exist for levels 1 to 5 only; only 3 to 5 transform the text. */
  lemma ModifierLevels()
    ensures DefaultChaosDictionary.modifiers.Keys == {1, 2, 3, 4, 5}
    ensures forall l :: l in DefaultChaosDictionary.modifiers ==>
      (DefaultChaosDictionary.modifiers[l].transformations.Some? <==> 3 <= l)
    ensures forall l :: l in DefaultChaosDictionary.modifiers ==>
      DefaultChaosDictionary.modifiers[l].suffixes.Some?
  {
  }
}

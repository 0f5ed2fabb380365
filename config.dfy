/**
 * The shared configuration store of the extension: the `ChaosConfig` record,
 * its compiled-in defaults, the shallow merge used by loading and saving, the
 * `ConfigManager` object with its listener list, its lazily created single
 * instance, and the two probability gates every content script uses.
 *
 * Storage is abstract: a read yields an optional stored record or fails, a
 * write succeeds or fails. Listeners are identified by a `ListenerId`; calling
 * them is modelled by the list of `Notification`s a save produces.
 */
module Config {
  import opened Wrappers

  type ListenerId = nat

  datatype Features = Features(
    wanderingCursor: bool,
    ghostTyping: bool,
    chaoticAutocomplete: bool,
    chaoticScroll: bool)

  datatype LlmSettings = LlmSettings(endpoint: Option<string>, apiKey: Option<string>)

  /** The configuration record; `llm` is an optional key. */
  datatype ChaosConfig = ChaosConfig(chaosLevel: int, features: Features, llm: Option<LlmSettings>)

  /**
   * A `Partial<ChaosConfig>`: each top-level key is present (`Some`) or absent.
   * The record kept in storage under "chaosConfig" has the same shape.
   */
  datatype ConfigPatch = ConfigPatch(
    chaosLevel: Option<int>,
    features: Option<Features>,
    llm: Option<LlmSettings>)

  const DefaultConfig: ChaosConfig :=
    ChaosConfig(4, Features(true, true, true, true), None)

  const NoChanges: ConfigPatch := ConfigPatch(None, None, None)

  /** The top-level keys of the record, and the value a key holds. */
  datatype Key = ChaosLevelKey | FeaturesKey | LlmKey
  datatype Value = Level(level: int) | Flags(flags: Features) | Llm(llm: Option<LlmSettings>)

  function Get(c: ChaosConfig, k: Key): Value {
    match k
    case ChaosLevelKey => Level(c.chaosLevel)
    case FeaturesKey => Flags(c.features)
    case LlmKey => Llm(c.llm)
  }

  function Lookup(p: ConfigPatch, k: Key): Option<Value> {
    match k
    case ChaosLevelKey => if p.chaosLevel.Some? then Some(Level(p.chaosLevel.value)) else None
    case FeaturesKey => if p.features.Some? then Some(Flags(p.features.value)) else None
    case LlmKey => if p.llm.Some? then Some(Llm(p.llm)) else None
  }

  /**
   * The object spread `{ ...base, ...p }`: every key present in `p` takes
   * `p`'s value, every other key keeps `base`'s. A nested record such as
   * `features` is one value, so it is replaced as a whole.
   */
  function Merge(base: ChaosConfig, p: ConfigPatch): (r: ChaosConfig)
    ensures forall k :: Get(r, k) == Lookup(p, k).GetOr(Get(base, k))
  {
    ChaosConfig(
      p.chaosLevel.GetOr(base.chaosLevel),
      p.features.GetOr(base.features),
      if p.llm.Some? then p.llm else base.llm)
  }

  /** The record written to storage for `c`: every key of `c` that is defined. */
  function Stored(c: ChaosConfig): (p: ConfigPatch)
    ensures forall k :: k != LlmKey ==> Lookup(p, k) == Some(Get(c, k))
    ensures Lookup(p, LlmKey) == if c.llm.Some? then Some(Get(c, LlmKey)) else None
  {
    ConfigPatch(Some(c.chaosLevel), Some(c.features), c.llm)
  }

  lemma MergeNoChanges(c: ChaosConfig)
    ensures Merge(c, NoChanges) == c
  {
  }

  lemma MergeIdempotent(c: ChaosConfig, p: ConfigPatch)
    ensures Merge(Merge(c, p), p) == Merge(c, p)
  {
  }

  /** A stored `{chaosLevel: 3}` loads as the defaults with only the level changed. */
  lemma LoadPartialLevel()
    ensures Merge(DefaultConfig, ConfigPatch(Some(3), None, None)) == DefaultConfig.(chaosLevel := 3)
  {
  }

  /** A record saved by the store loads back as exactly the saved config. */
  lemma {:induction false} ReloadAfterSave(c: ChaosConfig)
    ensures Merge(DefaultConfig, Stored(c)) == c
  {
    var r := Merge(DefaultConfig, Stored(c));
    assert Get(r, ChaosLevelKey) == Get(c, ChaosLevelKey);
    assert Get(r, FeaturesKey) == Get(c, FeaturesKey);
    assert Get(r, LlmKey) == Get(c, LlmKey);
  }

  // ---------------------------------------------------------------------------
  // Probability gates

  const DefaultBaseProbability: real := 0.1

  /** `max(0, min(1, chaosLevel / 5))`. */
  function ChaosIntensity(chaosLevel: int): (r: real)
    ensures 0.0 <= r <= 1.0
    ensures 0 <= chaosLevel <= 5 ==> r * 5.0 == chaosLevel as real
    ensures chaosLevel <= 0 ==> r == 0.0
    ensures chaosLevel >= 5 ==> r == 1.0
  {
    var q := chaosLevel as real / 5.0;
    if q < 0.0 then 0.0 else if q > 1.0 then 1.0 else q
  }

  lemma IntensityMonotone(a: int, b: int)
    requires a <= b
    ensures ChaosIntensity(a) <= ChaosIntensity(b)
  {
  }

  /**
   * `Math.random() < baseProbability * getChaosIntensity(chaosLevel)` for the
   * draw `r` in [0, 1).
   */
  function ShouldTrigger(chaosLevel: int, baseProbability: real, r: real): (b: bool)
    requires 0.0 <= r < 1.0
    ensures b ==> chaosLevel > 0 && baseProbability > 0.0
    ensures 0 <= chaosLevel <= 5 ==> (b <==> r * 5.0 < baseProbability * chaosLevel as real)
    ensures chaosLevel >= 5 ==> (b <==> r < baseProbability)
  {
    r < baseProbability * ChaosIntensity(chaosLevel)
  }

  /**
   * With the default base probability of `shouldTrigger`, an effect fires on
   * at most one draw in ten, and from level 5 on on exactly those below 0.1.
   */
  lemma DefaultTriggerRate(chaosLevel: int, r: real)
    requires 0.0 <= r < 1.0
    ensures ShouldTrigger(chaosLevel, DefaultBaseProbability, r) ==> r < 0.1
    ensures chaosLevel >= 5 ==> (ShouldTrigger(chaosLevel, DefaultBaseProbability, r) <==> r < 0.1)
    ensures chaosLevel <= 0 ==> !ShouldTrigger(chaosLevel, DefaultBaseProbability, r)
  {
  }

  // ---------------------------------------------------------------------------
  // Listeners

  /** One call `listener(config)`. */
  datatype Notification = Notification(listener: ListenerId, config: ChaosConfig)

  /** The closure returned by `onConfigChange`: it captures the listener. */
  datatype Unsubscribe = Unsubscribe(listener: ListenerId)

  /** `s.filter(x => x !== l)`. */
  function Without(s: seq<ListenerId>, l: ListenerId): (r: seq<ListenerId>)
    ensures |r| <= |s|
    ensures forall x :: x in r <==> x in s && x != l
  {
    if s == [] then [] else (if s[0] == l then [] else [s[0]]) + Without(s[1..], l)
  }

  lemma {:induction false} WithoutConcat(a: seq<ListenerId>, b: seq<ListenerId>, l: ListenerId)
    ensures Without(a + b, l) == Without(a, l) + Without(b, l)
  {
    if a != [] {
      assert (a + b)[1..] == a[1..] + b;
      WithoutConcat(a[1..], b, l);
    } else {
      assert a + b == b;
    }
  }

  lemma {:induction false} WithoutAbsent(s: seq<ListenerId>, l: ListenerId)
    requires l !in s
    ensures Without(s, l) == s
  {
    if s != [] {
      WithoutAbsent(s[1..], l);
    }
  }

  /** Every other listener keeps its number of registrations. */
  lemma {:induction false} WithoutKeepsOthers(s: seq<ListenerId>, l: ListenerId, x: ListenerId)
    requires x != l
    ensures multiset(Without(s, l))[x] == multiset(s)[x]
  {
    if s != [] {
      WithoutKeepsOthers(s[1..], l, x);
      assert s == [s[0]] + s[1..];
    }
  }

  /** Calling an unsubscribe closure a second time changes nothing. */
  lemma {:induction false} WithoutIdempotent(s: seq<ListenerId>, l: ListenerId)
    ensures Without(Without(s, l), l) == Without(s, l)
  {
    WithoutAbsent(Without(s, l), l);
  }

  /** Subscribing a new listener and unsubscribing it restores the list. */
  lemma {:induction false} SubscribeThenUnsubscribe(s: seq<ListenerId>, l: ListenerId)
    requires l !in s
    ensures Without(s + [l], l) == s
  {
    WithoutConcat(s, [l], l);
    WithoutAbsent(s, l);
    assert Without([l], l) == [];
  }

  class ConfigManager {
    var config: ChaosConfig
    var listeners: seq<ListenerId>

    constructor ()
      ensures config == DefaultConfig && listeners == []
    {
      config := DefaultConfig;
      listeners := [];
    }

    /**
     * `loadConfig`: a stored record is merged over the defaults (not over the
     * current config); with nothing stored, or when the read fails, the
     * in-memory config stays as it is. Either way the config is returned.
     */
    method LoadConfig(stored: Option<ConfigPatch>, readFailed: bool) returns (c: ChaosConfig)
      modifies this`config
      ensures config == if !readFailed && stored.Some? then Merge(DefaultConfig, stored.value) else old(config)
      ensures c == config
    {
      if !readFailed {
        if stored.Some? {
          config := Merge(DefaultConfig, stored.value);
        }
      }
      c := config;
    }

    /**
     * `saveConfig`: the in-memory config becomes the merge of the partial
     * over it, whatever the write does; the full merged record is what is
     * written; listeners are notified only after a successful write.
     */
    method SaveConfig(patch: ConfigPatch, writeOk: bool) returns (written: ConfigPatch, notified: seq<Notification>)
      modifies this`config
      ensures config == Merge(old(config), patch)
      ensures written == Stored(config)
      ensures writeOk ==> |notified| == |listeners|
      ensures writeOk ==> forall i :: 0 <= i < |listeners| ==> notified[i] == Notification(listeners[i], config)
      ensures !writeOk ==> notified == []
    {
      config := Merge(config, patch);
      written := Stored(config);
      if writeOk {
        notified := NotifyListeners();
      } else {
        notified := [];
      }
    }

    /** `getConfig`: the in-memory config, with no storage access. */
    method GetConfig() returns (c: ChaosConfig)
      ensures c == config
    {
      c := config;
    }

    /** `onConfigChange`: appends the listener and returns its unsubscribe closure. */
    method OnConfigChange(listener: ListenerId) returns (u: Unsubscribe)
      modifies this`listeners
      ensures listeners == old(listeners) + [listener]
      ensures u.listener == listener
    {
      listeners := listeners + [listener];
      u := Unsubscribe(listener);
    }

    /** Calling the closure returned by `onConfigChange`. */
    method CallUnsubscribe(u: Unsubscribe)
      modifies this`listeners
      ensures listeners == Without(old(listeners), u.listener)
    {
      listeners := Without(listeners, u.listener);
    }

    /** `notifyListeners`: each registered listener once, in order, with the config. */
    method NotifyListeners() returns (calls: seq<Notification>)
      ensures |calls| == |listeners|
      ensures forall i :: 0 <= i < |listeners| ==> calls[i] == Notification(listeners[i], config)
    {
      calls := [];
      var i := 0;
      while i < |listeners|
        invariant 0 <= i <= |listeners|
        invariant |calls| == i
        invariant forall j :: 0 <= j < i ==> calls[j] == Notification(listeners[j], config)
      {
        calls := calls + [Notification(listeners[i], config)];
        i := i + 1;
      }
    }
  }

  /** The static side of `ConfigManager`: its lazily created single instance. */
  class Singleton {
    var instance: ConfigManager?

    constructor ()
      ensures instance == null
    {
      instance := null;
    }

    /** `getInstance`: creates the manager on the first call only. */
    method GetInstance() returns (m: ConfigManager)
      modifies this
      ensures old(instance) != null ==> m == old(instance)
      ensures old(instance) == null ==> fresh(m) && m.config == DefaultConfig && m.listeners == []
      ensures instance == m
    {
      if instance == null {
        instance := new ConfigManager();
      }
      m := instance;
    }

    /** The `getConfig` wrapper: `getInstance().loadConfig()`. */
    method GetConfig(stored: Option<ConfigPatch>, readFailed: bool) returns (c: ChaosConfig)
      modifies this, instance
      ensures old(instance) != null ==> instance == old(instance)
      ensures instance != null && c == instance.config
      ensures !readFailed && stored.Some? ==> c == Merge(DefaultConfig, stored.value)
      ensures (readFailed || stored.None?) && old(instance) == null ==> c == DefaultConfig
      ensures (readFailed || stored.None?) && old(instance) != null ==> c == old(instance.config)
      ensures old(instance) != null ==> instance.listeners == old(instance.listeners)
      ensures old(instance) == null ==> fresh(instance) && instance.listeners == []
    {
      var m := GetInstance();
      c := m.LoadConfig(stored, readFailed);
    }

    /** The `setConfig` wrapper: `getInstance().saveConfig(partial)`. */
    method SetConfig(patch: ConfigPatch, writeOk: bool) returns (written: ConfigPatch, notified: seq<Notification>)
      modifies this, instance
      ensures old(instance) != null ==> instance == old(instance)
      ensures instance != null
      ensures old(instance) == null ==> instance.config == Merge(DefaultConfig, patch) && notified == []
      ensures old(instance) != null ==> instance.config == Merge(old(instance.config), patch)
      ensures old(instance) != null ==> instance.listeners == old(instance.listeners)
      ensures old(instance) == null ==> fresh(instance) && instance.listeners == []
      ensures written == Stored(instance.config)
      ensures writeOk ==> |notified| == |instance.listeners|
      ensures writeOk ==> forall i :: 0 <= i < |notified| ==> notified[i] == Notification(instance.listeners[i], instance.config)
      ensures writeOk && old(instance) != null ==>
        forall i :: 0 <= i < |old(instance.listeners)| ==> notified[i].listener == old(instance.listeners)[i]
      ensures !writeOk ==> notified == []
    {
      var m := GetInstance();
      written, notified := m.SaveConfig(patch, writeOk);
    }
  }
}

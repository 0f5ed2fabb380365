/**
 * The wandering-cursor content script: an on/off object that, while active,
 * owns a style element, a cursor element, the `cursor-chaos` class on the
 * page body, a `mousemove` listener and one interval timer whose every tick
 * places the cursor element near the real mouse position.
 *
 * DOM handles are booleans; the page-side effects this object causes are
 * counted in fields (`styleNodes`, `cursorNodes`, `liveIntervals`, ...), so
 * that "creates at most one" and "removes what it created" can be stated.
 */
module CursorChaos {
  import opened Wrappers
  import Config

  type TimerId = nat

  /**
   * One axis of a tick: `real + (draw - 0.5) * jitterScale * 2`, within
   * `jitterScale` of the real position for a draw in [0, 1).
   */
  function Jitter(realPos: real, jitterScale: real, draw: real): (p: real)
    requires 0.0 <= draw < 1.0 && jitterScale >= 0.0
    ensures realPos - jitterScale <= p <= realPos + jitterScale
    ensures jitterScale > 0.0 ==> p < realPos + jitterScale
    ensures jitterScale == 0.0 ==> p == realPos
  {
    realPos + Offset(draw, jitterScale)
  }

  /** `(draw - 0.5) * s * 2`: in [-s, s) for a draw in [0, 1), and 0 when `s` is. */
  function Offset(draw: real, s: real): (o: real)
    requires 0.0 <= draw < 1.0 && s >= 0.0
    ensures -s <= o <= s
    ensures s > 0.0 ==> o < s
    ensures s == 0.0 ==> o == 0.0
  {
    var o := (draw - 0.5) * s * 2.0;
    assert o == 2.0 * (draw * s) - s;
    MulNonNegative(draw, s);
    MulNonNegative(1.0 - draw, s);
    assert draw * s + (1.0 - draw) * s == s;
    assert s > 0.0 ==> (1.0 - draw) * s > 0.0 by {
      if s > 0.0 { MulPositive(1.0 - draw, s); }
    }
    o
  }

  lemma MulNonNegative(a: real, b: real)
    requires a >= 0.0 && b >= 0.0
    ensures a * b >= 0.0
  {
  }

  lemma MulPositive(a: real, b: real)
    requires a > 0.0 && b > 0.0
    ensures a * b > 0.0
  {
  }

  class CursorChaos {
    var isActive: bool
    var intensity: real
    const wanderRadius: real
    var intervalId: Option<TimerId>
    var style: bool
    var cursorElement: bool
    var realMouseX: real
    var realMouseY: real
    /** The position last written to the cursor element's `left` and `top`. */
    var cursorLeft: real
    var cursorTop: real

    // Page state the object changes.
    var timersCreated: nat
    var liveIntervals: set<TimerId>
    var styleNodes: nat
    var cursorNodes: nat
    var bodyClass: bool
    var listening: bool

    /**
     * The object invariant: every handle is held exactly while active, each
     * one stands for exactly one live page object, and at most one interval
     * timer runs.
     */
    ghost predicate Valid()
      reads this
    {
      && wanderRadius == 100.0
      && 0.0 <= intensity <= 1.0
      && style == isActive && cursorElement == isActive && intervalId.Some? == isActive
      && liveIntervals == (if intervalId.Some? then {intervalId.value} else {})
      && styleNodes == (if style then 1 else 0)
      && cursorNodes == (if cursorElement then 1 else 0)
      && bodyClass == isActive && listening == isActive
    }

    constructor ()
      ensures Valid() && !isActive && intensity == 1.0
      ensures realMouseX == 0.0 && realMouseY == 0.0
      ensures timersCreated == 0
    {
      isActive := false;
      intensity := 1.0;
      wanderRadius := 100.0;
      intervalId := None;
      style := false;
      cursorElement := false;
      realMouseX, realMouseY := 0.0, 0.0;
      cursorLeft, cursorTop := 0.0, 0.0;
      timersCreated := 0;
      liveIntervals := {};
      styleNodes, cursorNodes := 0, 0;
      bodyClass, listening := false, false;
    }

    /**
     * `init`: loads the config, applies its level and `wanderingCursor` flag,
     * and registers a listener (`listener`) that applies later configs.
     */
    method Init(manager: Config.ConfigManager, stored: Option<Config.ConfigPatch>, readFailed: bool, listener: Config.ListenerId)
      requires Valid()
      modifies this, manager
      ensures Valid()
      ensures manager.config == (if !readFailed && stored.Some? then Config.Merge(Config.DefaultConfig, stored.value) else old(manager.config))
      ensures isActive == manager.config.features.wanderingCursor
      ensures intensity == Config.ChaosIntensity(manager.config.chaosLevel)
      ensures manager.listeners == old(manager.listeners) + [listener]
    {
      var _ := manager.LoadConfig(stored, readFailed);
      var config := manager.GetConfig();
      UpdateSettings(config.chaosLevel, config.features.wanderingCursor);
      var _ := manager.OnConfigChange(listener);
    }

    /**
     * `updateSettings`: the intensity always follows the level; the object
     * starts or stops so that it is active exactly when enabled.
     */
    method UpdateSettings(chaosLevel: int, enabled: bool)
      requires Valid()
      modifies this
      ensures Valid()
      ensures isActive == enabled
      ensures intensity == Config.ChaosIntensity(chaosLevel)
      ensures realMouseX == old(realMouseX) && realMouseY == old(realMouseY)
      ensures enabled == old(isActive) ==>
        intervalId == old(intervalId) && timersCreated == old(timersCreated)
        && cursorLeft == old(cursorLeft) && cursorTop == old(cursorTop)
    {
      intensity := Config.ChaosIntensity(chaosLevel);
      if enabled && !isActive {
        Start();
      } else if !enabled && isActive {
        Stop();
      }
    }

    /** `start`: a no-op while active; otherwise acquires every handle once. */
    method Start()
      requires Valid()
      modifies this
      ensures Valid() && isActive
      ensures old(isActive) ==> unchanged(this)
      ensures !old(isActive) ==> intervalId == Some(old(timersCreated) + 1) && timersCreated == old(timersCreated) + 1
      ensures intensity == old(intensity)
      ensures realMouseX == old(realMouseX) && realMouseY == old(realMouseY)
      ensures cursorLeft == old(cursorLeft) && cursorTop == old(cursorTop)
    {
      if isActive {
        return;
      }
      isActive := true;
      InjectStyles();
      CreateCursor();
      StartChaos();
    }

    /** `stop`: clears the timer and removes the style, the cursor, the listener and the body class. */
    method Stop()
      requires Valid()
      modifies this
      ensures Valid() && !isActive
      ensures intervalId.None? && liveIntervals == {} && !style && !cursorElement
      ensures styleNodes == 0 && cursorNodes == 0 && !bodyClass && !listening
      ensures intensity == old(intensity) && timersCreated == old(timersCreated)
      ensures realMouseX == old(realMouseX) && realMouseY == old(realMouseY)
      ensures cursorLeft == old(cursorLeft) && cursorTop == old(cursorTop)
    {
      isActive := false;
      if intervalId.Some? {
        liveIntervals := liveIntervals - {intervalId.value};
        intervalId := None;
      }
      RemoveStyles();
      RemoveCursor();
    }

    /** `injectStyles`: appends one style element, unless one is held already. */
    method InjectStyles()
      modifies this`style, this`styleNodes
      ensures style
      ensures styleNodes == if old(style) then old(styleNodes) else old(styleNodes) + 1
    {
      if style {
        return;
      }
      style := true;
      styleNodes := styleNodes + 1;
    }

    /** `removeStyles`: removes the held style element, if any, and the body class. */
    method RemoveStyles()
      requires style ==> styleNodes > 0
      modifies this`style, this`styleNodes, this`bodyClass
      ensures !style && !bodyClass
      ensures styleNodes == if old(style) then old(styleNodes) - 1 else old(styleNodes)
    {
      if style {
        style := false;
        styleNodes := styleNodes - 1;
      }
      bodyClass := false;
    }

    /**
     * `createCursor`: unless one is held already, appends one cursor element,
     * sets the body class and listens to `mousemove`.
     */
    method CreateCursor()
      modifies this`cursorElement, this`cursorNodes, this`bodyClass, this`listening
      ensures cursorElement
      ensures old(cursorElement) ==> cursorNodes == old(cursorNodes) && bodyClass == old(bodyClass) && listening == old(listening)
      ensures !old(cursorElement) ==> cursorNodes == old(cursorNodes) + 1 && bodyClass && listening
    {
      if cursorElement {
        return;
      }
      cursorElement := true;
      cursorNodes := cursorNodes + 1;
      bodyClass := true;
      listening := true;
    }

    /** `removeCursor`: removes the held cursor element, if any, the listener and the body class. */
    method RemoveCursor()
      requires cursorElement ==> cursorNodes > 0
      modifies this`cursorElement, this`cursorNodes, this`bodyClass, this`listening
      ensures !cursorElement && !bodyClass && !listening
      ensures cursorNodes == if old(cursorElement) then old(cursorNodes) - 1 else old(cursorNodes)
    {
      if cursorElement {
        cursorElement := false;
        cursorNodes := cursorNodes - 1;
      }
      listening := false;
      bodyClass := false;
    }

    /** `startChaos`: registers a new interval timer and keeps its id. */
    method StartChaos()
      modifies this`intervalId, this`timersCreated, this`liveIntervals
      ensures timersCreated == old(timersCreated) + 1
      ensures intervalId == Some(timersCreated)
      ensures liveIntervals == old(liveIntervals) + {timersCreated}
    {
      timersCreated := timersCreated + 1;
      intervalId := Some(timersCreated);
      liveIntervals := liveIntervals + {timersCreated};
    }

    /** `handleMouseMove`: records the real pointer position, and nothing else. */
    method HandleMouseMove(clientX: real, clientY: real)
      modifies this`realMouseX, this`realMouseY
      ensures realMouseX == clientX && realMouseY == clientY
    {
      realMouseX := clientX;
      realMouseY := clientY;
    }

    /**
     * One tick of the interval: without a cursor element nothing happens;
     * otherwise the element is placed within `wanderRadius * intensity` of
     * the real mouse position on each axis.
     */
    method Tick(drawX: real, drawY: real)
      requires Valid()
      requires 0.0 <= drawX < 1.0 && 0.0 <= drawY < 1.0
      modifies this`cursorLeft, this`cursorTop
      ensures !cursorElement ==> cursorLeft == old(cursorLeft) && cursorTop == old(cursorTop)
      ensures cursorElement ==>
        var scale := wanderRadius * intensity;
        && cursorLeft == Jitter(realMouseX, scale, drawX) && cursorTop == Jitter(realMouseY, scale, drawY)
        && realMouseX - scale <= cursorLeft <= realMouseX + scale
        && realMouseY - scale <= cursorTop <= realMouseY + scale
    {
      if !cursorElement {
        return;
      }
      var jitterScale := wanderRadius * intensity;
      cursorLeft := Jitter(realMouseX, jitterScale, drawX);
      cursorTop := Jitter(realMouseY, jitterScale, drawY);
    }
  }
}

/**
 * The DockMonitor object: its persisted settings, its geometry cache, and the
 * event tap it installs and removes. The OS is reached through inputs only:
 * the screen layout, whether the OS grants a tap, and the defaults store.
 */
module Monitor {
  import opened Wrappers
  import opened Modifiers
  import opened ScreenGeometry
  import opened ClampPolicy
  import opened Persistence

  /** The user-defaults store: keys mapped to property-list values. */
  class UserDefaults {
    var entries: Store

    constructor (entries: Store)
      ensures this.entries == entries
    {
      this.entries := entries;
    }
  }

  /** A pointer event as the tap sees it; its location can be rewritten in place. */
  class CGEvent {
    var location: Point
    const flags: set<EventFlag>

    constructor (location: Point, flags: set<EventFlag>)
      ensures this.location == location && this.flags == flags
    {
      this.location := location;
      this.flags := flags;
    }
  }

  /** The installed tap, as far as the monitor can observe it: whether the OS delivers events to it. */
  datatype EventTap = EventTap(enabled: bool)

  /** The run-loop source that connects the tap to the main run loop. */
  datatype RunLoopSource = MainRunLoopSource

  class DockMonitor {
    /** Displays where the Dock is allowed. */
    var allowedDisplays: set<DisplayId>
    /** Modifier that suspends clamping while held. */
    var overrideModifier: ModifierOption
    /** Whether locking is active. */
    var isEnabled: bool
    var eventTap: Option<EventTap>
    var runLoopSource: Option<RunLoopSource>
    /** Bounds of the screens where the Dock is not allowed, read by the event callback. */
    var blockedScreens: seq<ScreenBounds>
    /** The resolved override modifier, read by the event callback. */
    var overrideFlag: Option<EventFlag>
    /** `UserDefaults.standard`. */
    const defaults: UserDefaults

    /** A tap and its run-loop source come and go together, and a tap is only held while enabled. */
    ghost predicate Valid()
      reads this
    {
      (eventTap.Some? <==> runLoopSource.Some?) && (eventTap.Some? ==> isEnabled)
    }

    /** The persisted triple. */
    function State(): EngineState
      reads this
    {
      EngineState(allowedDisplays, isEnabled, overrideModifier)
    }

    constructor (defaults: UserDefaults)
      ensures this.defaults == defaults
      ensures allowedDisplays == {} && overrideModifier == OptionKey && !isEnabled
      ensures eventTap.None? && runLoopSource.None?
      ensures blockedScreens == [] && overrideFlag == Some(MaskAlternate)
      ensures Valid()
    {
      allowedDisplays := {};
      overrideModifier := OptionKey;
      isEnabled := false;
      eventTap := None;
      runLoopSource := None;
      blockedScreens := [];
      overrideFlag := Some(MaskAlternate);
      this.defaults := defaults;
    }

    /** `saveState`: writes the triple under its three keys and leaves every other key alone. */
    method SaveState()
      modifies defaults
      ensures Persisted(defaults.entries, State())
      ensures defaults.entries - {AllowedDisplaysKey, IsEnabledKey, OverrideModifierKey}
           == old(defaults.entries) - {AllowedDisplaysKey, IsEnabledKey, OverrideModifierKey}
    {
      var ids := IdList(allowedDisplays);
      defaults.entries := defaults.entries[AllowedDisplaysKey := IntArray(ids)]
                                          [IsEnabledKey := BoolValue(isEnabled)]
                                          [OverrideModifierKey := IntegerValue(RawValue(overrideModifier))];
    }

    /**
     * `restoreState`: reads the triple back and resolves the override flag.
     * The flag `isEnabled` is set directly: no tap is installed here.
     */
    method RestoreState()
      requires StoredIdsInRange(defaults.entries)
      modifies this
      ensures State() == Restored(defaults.entries, old(allowedDisplays))
      ensures overrideFlag == CgFlag(overrideModifier)
      ensures eventTap == old(eventTap) && runLoopSource == old(runLoopSource)
      ensures blockedScreens == old(blockedScreens)
      ensures old(Valid()) && eventTap.None? ==> Valid()
    {
      var ids := IntArrayFor(defaults.entries, AllowedDisplaysKey);
      if ids.Some? {
        allowedDisplays := set i | i in ids.value :: i as DisplayId;
      }
      isEnabled := BoolFor(defaults.entries, IsEnabledKey);
      overrideModifier := FromRawValue(IntegerFor(defaults.entries, OverrideModifierKey)).GetOr(OptionKey);
      overrideFlag := CgFlag(overrideModifier);
    }

    /**
     * `startLocking`: true at once when already enabled; otherwise refreshes
     * the cache and tries to install the tap, enabling only if that succeeds.
     * `tapCreated` is whether the OS grants the tap.
     */
    method StartLocking(layout: Layout, tapCreated: bool) returns (started: bool)
      modifies this
      ensures old(isEnabled) ==> started && unchanged(this)
      ensures !old(isEnabled) ==>
                && started == tapCreated && isEnabled == tapCreated
                && blockedScreens == BlockedScreens(layout.screens, allowedDisplays, layout.primaryHeight)
                && overrideFlag == CgFlag(overrideModifier)
                && (tapCreated ==> eventTap == Some(EventTap(true)) && runLoopSource == Some(MainRunLoopSource))
                && (!tapCreated ==> eventTap == old(eventTap) && runLoopSource == old(runLoopSource))
      ensures allowedDisplays == old(allowedDisplays) && overrideModifier == old(overrideModifier)
      ensures old(Valid()) ==> Valid()
    {
      if isEnabled {
        return true;
      }
      overrideFlag := CgFlag(overrideModifier);
      RefreshScreenCache(layout);
      var installed := InstallEventTap(tapCreated);
      if installed {
        isEnabled := true;
        return true;
      }
      return false;
    }

    /** `stopLocking`: nothing when disabled; otherwise disables and removes the tap. */
    method StopLocking()
      modifies this
      ensures !old(isEnabled) ==> unchanged(this)
      ensures old(isEnabled) ==> eventTap.None? && runLoopSource.None?
      ensures !isEnabled
      ensures allowedDisplays == old(allowedDisplays) && overrideModifier == old(overrideModifier)
      ensures blockedScreens == old(blockedScreens) && overrideFlag == old(overrideFlag)
      ensures old(Valid()) ==> Valid()
    {
      if !isEnabled {
        return;
      }
      isEnabled := false;
      RemoveEventTap();
    }

    /** `refreshScreenCache`: rebuilds the cache from the layout and re-resolves the override flag. */
    method RefreshScreenCache(layout: Layout)
      modifies this`blockedScreens, this`overrideFlag
      ensures blockedScreens == BlockedScreens(layout.screens, allowedDisplays, layout.primaryHeight)
      ensures overrideFlag == CgFlag(overrideModifier)
    {
      blockedScreens := BlockedScreens(layout.screens, allowedDisplays, layout.primaryHeight);
      overrideFlag := CgFlag(overrideModifier);
    }

    /** `installEventTap`: on success holds an enabled tap attached to the main run loop. */
    method InstallEventTap(tapCreated: bool) returns (installed: bool)
      modifies this`eventTap, this`runLoopSource
      ensures installed == tapCreated
      ensures installed ==> eventTap == Some(EventTap(true)) && runLoopSource == Some(MainRunLoopSource)
      ensures !installed ==> eventTap == old(eventTap) && runLoopSource == old(runLoopSource)
    {
      if !tapCreated {
        return false;
      }
      eventTap := Some(EventTap(true));
      runLoopSource := Some(MainRunLoopSource);
      return true;
    }

    /**
     * `removeEventTap`: drops both handles. Disabling the tap and detaching
     * its source just before they are released leaves nothing the monitor
     * can observe afterwards.
     */
    method RemoveEventTap()
      modifies this`eventTap, this`runLoopSource
      ensures eventTap.None? && runLoopSource.None?
    {
      eventTap := None;
      runLoopSource := None;
    }

    /**
     * The OS suspending the held tap (after a slow callback, or on certain
     * user input); it then delivers a suspension signal to the callback.
     */
    method SuspendTapByOS()
      modifies this`eventTap
      ensures eventTap == if old(eventTap).Some? then Some(EventTap(false)) else None
    {
      if eventTap.Some? {
        eventTap := Some(EventTap(false));
      }
    }

    /**
     * `processEvent`: re-enables a suspended tap, passes events through when
     * disabled or overridden, and otherwise walks the cache; the first
     * blocked screen whose bottom band the cursor is in moves the cursor up.
     */
    method ProcessEvent(event: CGEvent, kind: EventType) returns (r: CGEvent)
      modifies this`eventTap, event
      ensures r == event
      ensures event.location == ProcessedLocation(kind, isEnabled, overrideFlag, event.flags,
                                                  old(event.location), blockedScreens)
      ensures eventTap == if SignalsTapDisabled(kind) && old(eventTap).Some? then Some(EventTap(true))
                          else old(eventTap)
    {
      if kind == TapDisabledByTimeout || kind == TapDisabledByUserInput {
        if eventTap.Some? {
          eventTap := Some(EventTap(true));
        }
        return event;
      }
      if !isEnabled {
        return event;
      }
      if overrideFlag.Some? && overrideFlag.value in event.flags {
        return event;
      }
      var loc := event.location;
      for i := 0 to |blockedScreens|
        invariant event.location == loc
        invariant forall j :: 0 <= j < i ==> !Triggers(loc, blockedScreens[j])
      {
        var s := blockedScreens[i];
        if !(loc.x >= s.cgLeft && loc.x < s.cgRight) {
          continue;
        }
        if loc.y >= s.cgBottom - 5.0 && loc.y <= s.cgBottom + 2.0 {
          event.location := loc.(y := s.cgBottom - 7.0);
          ClampFirstMatch(loc, blockedScreens, i);
          return event;
        }
      }
      ClampNoMatch(loc, blockedScreens);
      return event;
    }
  }
}

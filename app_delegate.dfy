/**
 * The menu actions of the status-bar app and its launch sequence, as methods
 * on an AppDelegate that owns one DockMonitor. Menus, icons, alerts and the
 * accessibility prompt are not modelled; `trusted` and `tapCreated` stand for
 * the OS's answers.
 */
module App {
  import opened Wrappers
  import opened Modifiers
  import opened ScreenGeometry
  import opened Persistence
  import opened Monitor

  class AppDelegate {
    const monitor: DockMonitor

    constructor (defaults: UserDefaults)
      ensures fresh(monitor) && monitor.defaults == defaults
      ensures monitor.allowedDisplays == {} && !monitor.isEnabled && monitor.overrideModifier == OptionKey
      ensures monitor.eventTap.None? && monitor.runLoopSource.None?
      ensures monitor.blockedScreens == [] && monitor.overrideFlag == Some(MaskAlternate)
      ensures monitor.Valid()
    {
      monitor := new DockMonitor(defaults);
    }

    /**
     * `applicationDidFinishLaunching`: restores the settings and, when trusted
     * and restored as enabled, calls `startLocking`, which then returns at its
     * guard: the launch installs no tap and leaves the cache as it was.
     */
    method ApplicationDidFinishLaunching(trusted: bool, layout: Layout, tapCreated: bool)
      requires StoredIdsInRange(monitor.defaults.entries)
      modifies monitor
      ensures monitor.State() == Restored(monitor.defaults.entries, old(monitor.allowedDisplays))
      ensures monitor.overrideFlag == CgFlag(monitor.overrideModifier)
      ensures monitor.eventTap == old(monitor.eventTap) && monitor.runLoopSource == old(monitor.runLoopSource)
      ensures monitor.blockedScreens == old(monitor.blockedScreens)
      ensures old(monitor.eventTap).None? && old(monitor.runLoopSource).None? ==> monitor.Valid()
    {
      monitor.RestoreState();
      if trusted && monitor.isEnabled {
        var started := monitor.StartLocking(layout, tapCreated);
      }
    }

    /**
     * `toggleEnabled`: when enabled, stops and saves. When disabled, seeds an
     * empty allowed set with the Dock's screen if one is detected, then starts;
     * a failed start returns before saving.
     */
    method ToggleEnabled(layout: Layout, tapCreated: bool)
      modifies monitor, monitor.defaults
      ensures old(monitor.isEnabled) ==>
                && !monitor.isEnabled
                && monitor.allowedDisplays == old(monitor.allowedDisplays)
                && (old(monitor.Valid()) ==> monitor.eventTap.None? && monitor.runLoopSource.None?)
                && monitor.blockedScreens == old(monitor.blockedScreens)
                && monitor.overrideFlag == old(monitor.overrideFlag)
                && Persisted(monitor.defaults.entries, monitor.State())
      ensures !old(monitor.isEnabled) ==>
                && monitor.allowedDisplays
                   == (if old(monitor.allowedDisplays) == {} && CurrentDockScreen(layout.screens).Some?
                       then {CurrentDockScreen(layout.screens).value.id}
                       else old(monitor.allowedDisplays))
                && monitor.isEnabled == tapCreated
                && monitor.blockedScreens
                   == BlockedScreens(layout.screens, monitor.allowedDisplays, layout.primaryHeight)
                && monitor.overrideFlag == CgFlag(monitor.overrideModifier)
                && (tapCreated ==> monitor.eventTap == Some(EventTap(true))
                                   && monitor.runLoopSource == Some(MainRunLoopSource))
                && (!tapCreated ==> monitor.eventTap == old(monitor.eventTap)
                                    && monitor.runLoopSource == old(monitor.runLoopSource))
                && (tapCreated ==> Persisted(monitor.defaults.entries, monitor.State()))
                && (!tapCreated ==> monitor.defaults.entries == old(monitor.defaults.entries))
      ensures monitor.overrideModifier == old(monitor.overrideModifier)
      ensures old(monitor.Valid()) ==> monitor.Valid()
    {
      if monitor.isEnabled {
        monitor.StopLocking();
      } else {
        if monitor.allowedDisplays == {} {
          var screen := CurrentDockScreen(layout.screens);
          if screen.Some? {
            monitor.allowedDisplays := monitor.allowedDisplays + {screen.value.id};
          }
        }
        var started := monitor.StartLocking(layout, tapCreated);
        if !started {
          return;
        }
      }
      monitor.SaveState();
    }

    /**
     * `toggleAllow`: refuses to remove the last allowed display (whether or
     * not locking is active); otherwise flips that one id, saves, and
     * refreshes the cache when enabled.
     */
    method ToggleAllow(id: DisplayId, layout: Layout)
      modifies monitor, monitor.defaults
      ensures id in old(monitor.allowedDisplays) && |old(monitor.allowedDisplays)| <= 1 ==>
                unchanged(monitor) && unchanged(monitor.defaults)
      ensures !(id in old(monitor.allowedDisplays) && |old(monitor.allowedDisplays)| <= 1) ==>
                && (id in monitor.allowedDisplays <==> id !in old(monitor.allowedDisplays))
                && (forall other :: other != id ==>
                      (other in monitor.allowedDisplays <==> other in old(monitor.allowedDisplays)))
                && Persisted(monitor.defaults.entries, monitor.State())
                && monitor.blockedScreens
                   == (if monitor.isEnabled
                       then BlockedScreens(layout.screens, monitor.allowedDisplays, layout.primaryHeight)
                       else old(monitor.blockedScreens))
                && monitor.overrideFlag
                   == (if monitor.isEnabled then CgFlag(monitor.overrideModifier) else old(monitor.overrideFlag))
      ensures old(monitor.allowedDisplays) != {} ==> monitor.allowedDisplays != {}
      ensures monitor.isEnabled == old(monitor.isEnabled) && monitor.overrideModifier == old(monitor.overrideModifier)
      ensures monitor.eventTap == old(monitor.eventTap) && monitor.runLoopSource == old(monitor.runLoopSource)
    {
      if id in monitor.allowedDisplays {
        if |monitor.allowedDisplays| <= 1 {
          return;
        }
        assert |monitor.allowedDisplays - {id}| == |monitor.allowedDisplays| - 1;
        monitor.allowedDisplays := monitor.allowedDisplays - {id};
      } else {
        monitor.allowedDisplays := monitor.allowedDisplays + {id};
      }
      monitor.SaveState();
      if monitor.isEnabled {
        monitor.RefreshScreenCache(layout);
      }
    }

    /**
     * `pickModifier`: stores the chosen modifier (Option for an unknown tag)
     * and saves; the resolved flag and the cache are left as they were.
     */
    method PickModifier(tag: int)
      modifies monitor, monitor.defaults
      ensures monitor.overrideModifier == FromRawValue(tag).GetOr(OptionKey)
      ensures 0 <= tag <= 4 ==> RawValue(monitor.overrideModifier) == tag
      ensures Persisted(monitor.defaults.entries, monitor.State())
      ensures monitor.overrideFlag == old(monitor.overrideFlag) && monitor.blockedScreens == old(monitor.blockedScreens)
      ensures monitor.allowedDisplays == old(monitor.allowedDisplays) && monitor.isEnabled == old(monitor.isEnabled)
      ensures monitor.eventTap == old(monitor.eventTap) && monitor.runLoopSource == old(monitor.runLoopSource)
    {
      monitor.overrideModifier := FromRawValue(tag).GetOr(OptionKey);
      monitor.SaveState();
    }

    /** `quitApp`: stops locking (termination itself is not modelled). */
    method QuitApp()
      modifies monitor
      ensures !monitor.isEnabled
      ensures old(monitor.Valid()) ==> monitor.eventTap.None? && monitor.runLoopSource.None? && monitor.Valid()
    {
      monitor.StopLocking();
    }

    /**
     * `screensChanged`: drops the ids of displays no longer connected (with
     * no check that one remains), refreshes the cache when enabled, and saves.
     */
    method ScreensChanged(layout: Layout)
      modifies monitor, monitor.defaults
      ensures monitor.allowedDisplays == old(monitor.allowedDisplays) * ConnectedIds(layout.screens)
      ensures monitor.allowedDisplays <= old(monitor.allowedDisplays)
      ensures forall id :: id in monitor.allowedDisplays ==> exists s :: s in layout.screens && s.id == id
      ensures monitor.blockedScreens
              == (if monitor.isEnabled
                  then BlockedScreens(layout.screens, monitor.allowedDisplays, layout.primaryHeight)
                  else old(monitor.blockedScreens))
      ensures monitor.overrideFlag
              == (if monitor.isEnabled then CgFlag(monitor.overrideModifier) else old(monitor.overrideFlag))
      ensures Persisted(monitor.defaults.entries, monitor.State())
      ensures monitor.isEnabled == old(monitor.isEnabled) && monitor.overrideModifier == old(monitor.overrideModifier)
      ensures monitor.eventTap == old(monitor.eventTap) && monitor.runLoopSource == old(monitor.runLoopSource)
    {
      var currentIds := ConnectedIds(layout.screens);
      monitor.allowedDisplays := monitor.allowedDisplays * currentIds;
      if monitor.isEnabled {
        monitor.RefreshScreenCache(layout);
      }
      monitor.SaveState();
    }
  }
}

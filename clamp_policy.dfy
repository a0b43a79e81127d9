/**
 * The per-event clamp decision of `processEvent`: which events pass through
 * untouched and where a cursor entering a blocked screen's Dock-trigger band
 * is moved to. The imperative walk over the cache is DockMonitor.ProcessEvent;
 * the functions here are its specification.
 */
module ClampPolicy {
  import opened Wrappers
  import opened Modifiers
  import opened ScreenGeometry

  /** The event kinds the tap receives: the four motion kinds it asks for and the two suspension signals. */
  datatype EventType =
    | MouseMoved | LeftMouseDragged | RightMouseDragged | OtherMouseDragged
    | TapDisabledByTimeout | TapDisabledByUserInput

  predicate SignalsTapDisabled(kind: EventType) {
    kind == TapDisabledByTimeout || kind == TapDisabledByUserInput
  }

  /** How far above and below a blocked screen's bottom edge the trigger band reaches, and where the cursor is put. */
  const BandAbove: real := 5.0
  const BandBelow: real := 2.0
  const NudgeDistance: real := 7.0

  /** The cursor is over the screen's columns: the x-range is half open, `[cgLeft, cgRight)`. */
  predicate InColumns(p: Point, s: ScreenBounds) {
    s.cgLeft <= p.x < s.cgRight
  }

  /** The cursor is within the closed band `[cgBottom - 5, cgBottom + 2]` around the bottom edge. */
  predicate InTriggerBand(p: Point, s: ScreenBounds) {
    s.cgBottom - BandAbove <= p.y <= s.cgBottom + BandBelow
  }

  predicate Triggers(p: Point, s: ScreenBounds) {
    InColumns(p, s) && InTriggerBand(p, s)
  }

  /** The cursor moved up to `cgBottom - 7`, x kept. */
  function Nudged(p: Point, s: ScreenBounds): (q: Point)
    ensures q.x == p.x
    ensures !InTriggerBand(q, s)
    ensures InTriggerBand(p, s) ==> q.y < p.y
  {
    p.(y := s.cgBottom - NudgeDistance)
  }

  /** The location after the walk over the cache: the first screen that triggers decides. */
  function Clamp(p: Point, blocked: seq<ScreenBounds>): (q: Point)
    ensures q.x == p.x
    ensures q == p || exists i :: 0 <= i < |blocked| && Triggers(p, blocked[i]) && q == Nudged(p, blocked[i])
  {
    if blocked == [] then p
    else if Triggers(p, blocked[0]) then Nudged(p, blocked[0])
    else
      var q := Clamp(p, blocked[1..]);
      assert q != p ==> exists i :: 1 <= i < |blocked| && Triggers(p, blocked[i]) && q == Nudged(p, blocked[i]) by {
        if q != p {
          var k :| 0 <= k < |blocked[1..]| && Triggers(p, blocked[1..][k]) && q == Nudged(p, blocked[1..][k]);
          assert blocked[k + 1] == blocked[1..][k];
        }
      }
      q
  }

  /** The first triggering screen wins; later screens are not consulted. */
  lemma {:induction false} ClampFirstMatch(p: Point, blocked: seq<ScreenBounds>, i: nat)
    requires i < |blocked| && Triggers(p, blocked[i])
    requires forall j :: 0 <= j < i ==> !Triggers(p, blocked[j])
    ensures Clamp(p, blocked) == Nudged(p, blocked[i])
    ensures Clamp(p, blocked).y == blocked[i].cgBottom - NudgeDistance
  {
    if i > 0 {
      assert !Triggers(p, blocked[0]);
      assert blocked[1..][i - 1] == blocked[i];
      ClampFirstMatch(p, blocked[1..], i - 1);
    }
  }

  /** When no screen triggers, the location is unchanged. */
  lemma {:induction false} ClampNoMatch(p: Point, blocked: seq<ScreenBounds>)
    requires forall s :: s in blocked ==> !Triggers(p, s)
    ensures Clamp(p, blocked) == p
  {
    if blocked != [] {
      assert blocked[0] in blocked;
      assert forall s :: s in blocked[1..] ==> s in blocked;
      ClampNoMatch(p, blocked[1..]);
    }
  }

  /** The location moves exactly when some screen triggers. */
  lemma ClampMovesIffTriggered(p: Point, blocked: seq<ScreenBounds>)
    ensures Clamp(p, blocked) != p <==> exists s :: s in blocked && Triggers(p, s)
  {
    if exists s :: s in blocked && Triggers(p, s) {
      var s :| s in blocked && Triggers(p, s);
      var i := FirstTrigger(p, blocked, s);
      ClampFirstMatch(p, blocked, i);
    } else {
      ClampNoMatch(p, blocked);
    }
  }

  /** The index of the first triggering screen, given that one triggers. */
  lemma {:induction false} FirstTrigger(p: Point, blocked: seq<ScreenBounds>, s: ScreenBounds) returns (i: nat)
    requires s in blocked && Triggers(p, s)
    ensures i < |blocked| && Triggers(p, blocked[i])
    ensures forall j :: 0 <= j < i ==> !Triggers(p, blocked[j])
  {
    if Triggers(p, blocked[0]) {
      i := 0;
    } else {
      assert s in blocked[1..];
      var k := FirstTrigger(p, blocked[1..], s);
      i := k + 1;
      assert forall j :: 1 <= j < i ==> blocked[j] == blocked[1..][j - 1];
    }
  }

  /** No two cached screens share a column (the usual side-by-side arrangement). */
  predicate ColumnsDisjoint(blocked: seq<ScreenBounds>) {
    forall i, j :: 0 <= i < j < |blocked| ==>
      blocked[i].cgRight <= blocked[j].cgLeft || blocked[j].cgRight <= blocked[i].cgLeft
  }

  /**
   * A nudged cursor is not nudged again: with side-by-side screens, processing
   * the result a second time leaves it where it is.
   */
  lemma {:induction false} ClampIdempotent(p: Point, blocked: seq<ScreenBounds>)
    requires ColumnsDisjoint(blocked)
    ensures Clamp(Clamp(p, blocked), blocked) == Clamp(p, blocked)
  {
    if blocked != [] {
      var s0 := blocked[0];
      var rest := blocked[1..];
      assert ColumnsDisjoint(rest) by {
        forall i, j | 0 <= i < j < |rest|
          ensures rest[i].cgRight <= rest[j].cgLeft || rest[j].cgRight <= rest[i].cgLeft
        {
          assert rest[i] == blocked[i + 1] && rest[j] == blocked[j + 1];
        }
      }
      assert forall k :: 0 <= k < |rest| ==> rest[k] == blocked[k + 1];
      if Triggers(p, s0) {
        var q := Nudged(p, s0);
        forall s | s in rest ensures !Triggers(q, s) {
          var k :| 0 <= k < |rest| && rest[k] == s;
          assert blocked[0].cgRight <= blocked[k + 1].cgLeft || blocked[k + 1].cgRight <= blocked[0].cgLeft;
        }
        ClampNoMatch(q, rest);
      } else {
        var q := Clamp(p, rest);
        ClampIdempotent(p, rest);
        if q != p {
          var k :| 0 <= k < |rest| && Triggers(p, rest[k]) && q == Nudged(p, rest[k]);
          assert blocked[0].cgRight <= blocked[k + 1].cgLeft || blocked[k + 1].cgRight <= blocked[0].cgLeft;
        }
        assert !Triggers(q, s0);
      }
    }
  }

  /**
   * Where `processEvent` leaves the event's location: suspension signals, a
   * disabled monitor and a held override modifier pass the event through;
   * otherwise the cache decides.
   */
  function ProcessedLocation(kind: EventType, enabled: bool, overrideFlag: Option<EventFlag>,
                             flags: set<EventFlag>, p: Point, blocked: seq<ScreenBounds>): (q: Point)
    ensures q.x == p.x
    ensures SignalsTapDisabled(kind) || !enabled ==> q == p
  {
    if SignalsTapDisabled(kind) then p
    else if !enabled then p
    else if overrideFlag.Some? && overrideFlag.value in flags then p
    else Clamp(p, blocked)
  }

  /** Holding the chosen override modifier passes the event through wherever the cursor is. */
  lemma OverrideBypasses(kind: EventType, enabled: bool, m: ModifierOption, flags: set<EventFlag>,
                         p: Point, blocked: seq<ScreenBounds>)
    requires m != NoModifier && CgFlag(m).value in flags
    ensures ProcessedLocation(kind, enabled, CgFlag(m), flags, p, blocked) == p
  {
  }

  /**
   * The main case: a motion event reaching an enabled monitor whose override
   * flag is unset or not held is clamped against the cache.
   */
  lemma UnheldOverrideClamps(kind: EventType, overrideFlag: Option<EventFlag>, flags: set<EventFlag>,
                             p: Point, blocked: seq<ScreenBounds>)
    requires !SignalsTapDisabled(kind)
    requires overrideFlag.None? || overrideFlag.value !in flags
    ensures ProcessedLocation(kind, true, overrideFlag, flags, p, blocked) == Clamp(p, blocked)
  {
  }

  /** The "None" choice never bypasses: whatever is held, an enabled monitor clamps motion events. */
  lemma NoModifierNeverBypasses(kind: EventType, flags: set<EventFlag>, p: Point, blocked: seq<ScreenBounds>)
    requires !SignalsTapDisabled(kind)
    ensures ProcessedLocation(kind, true, CgFlag(NoModifier), flags, p, blocked) == Clamp(p, blocked)
  {
    UnheldOverrideClamps(kind, CgFlag(NoModifier), flags, p, blocked);
  }

  /**
   * The worked example of a 1920-wide screen whose bottom edge is at 1080:
   * (500, 1078) goes to (500, 1073); (500, 1050) and (2000, 1078) stay.
   */
  lemma ClampExamples()
    ensures Clamp(Point(500.0, 1078.0), [ScreenBounds(0.0, 1920.0, 1080.0)]) == Point(500.0, 1073.0)
    ensures Clamp(Point(500.0, 1050.0), [ScreenBounds(0.0, 1920.0, 1080.0)]) == Point(500.0, 1050.0)
    ensures Clamp(Point(2000.0, 1078.0), [ScreenBounds(0.0, 1920.0, 1080.0)]) == Point(2000.0, 1078.0)
  {
  }
}

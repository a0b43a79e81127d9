/**
 * Screens, their frames, and the geometry cache derived from them: the
 * bottom edges of the screens where the Dock is not allowed, in the event
 * coordinate space (origin at the primary display's top-left, y growing
 * downwards), and the heuristic that finds the screen hosting the Dock.
 */
module ScreenGeometry {
  import opened Wrappers

  /** A CGDirectDisplayID, an unsigned 32-bit integer. */
  type DisplayId = x: int | 0 <= x < 0x1_0000_0000

  predicate IsDisplayId(x: int) {
    0 <= x < 0x1_0000_0000
  }

  /** A cursor position in the event coordinate space. */
  datatype Point = Point(x: real, y: real)

  /**
   * A rectangle in the screen-layout space (origin at the primary display's
   * bottom-left, y growing upwards), given by its edges.
   */
  datatype Rect = Rect(minX: real, minY: real, maxX: real, maxY: real)

  /** A connected screen: its id, its full frame, and the frame minus menu bar and Dock. */
  datatype Screen = Screen(id: DisplayId, frame: Rect, visibleFrame: Rect)

  /** What the OS reports: the connected screens in its order, and the primary display's height. */
  datatype Layout = Layout(screens: seq<Screen>, primaryHeight: real)

  /** The cached geometry of one blocked screen: its x-range and bottom edge in event coordinates. */
  datatype ScreenBounds = ScreenBounds(cgLeft: real, cgRight: real, cgBottom: real)

  /** The ids of the connected screens. */
  function ConnectedIds(screens: seq<Screen>): (ids: set<DisplayId>)
    ensures forall s :: s in screens ==> s.id in ids
    ensures forall id :: id in ids ==> exists s :: s in screens && s.id == id
  {
    set s | s in screens :: s.id
  }

  /** A screen's bounds, with the bottom edge flipped from layout space into event space. */
  function BoundsOf(s: Screen, primaryHeight: real): ScreenBounds {
    ScreenBounds(s.frame.minX, s.frame.maxX, primaryHeight - s.frame.minY)
  }

  /** One ScreenBounds per screen whose id is not allowed, in screen order. */
  function BlockedScreens(screens: seq<Screen>, allowed: set<DisplayId>, primaryHeight: real): (r: seq<ScreenBounds>)
    ensures |r| <= |screens|
  {
    if screens == [] then []
    else
      var rest := BlockedScreens(screens[1..], allowed, primaryHeight);
      if screens[0].id in allowed then rest
      else [BoundsOf(screens[0], primaryHeight)] + rest
  }

  /**
   * The cache holds the bounds of every blocked screen and nothing else, and
   * it is empty exactly when every connected screen is allowed.
   */
  lemma {:induction false} BlockedScreensMembers(screens: seq<Screen>, allowed: set<DisplayId>, h: real)
    ensures forall s :: s in screens && s.id !in allowed ==> BoundsOf(s, h) in BlockedScreens(screens, allowed, h)
    ensures forall b :: b in BlockedScreens(screens, allowed, h) ==>
              exists s :: s in screens && s.id !in allowed && b == BoundsOf(s, h)
    ensures BlockedScreens(screens, allowed, h) == [] <==> forall s :: s in screens ==> s.id in allowed
  {
    if screens != [] {
      BlockedScreensMembers(screens[1..], allowed, h);
      assert forall s :: s in screens <==> s == screens[0] || s in screens[1..];
    }
  }

  /** The cache is built screen by screen: concatenated layouts give concatenated caches. */
  lemma {:induction false} BlockedScreensAppend(a: seq<Screen>, b: seq<Screen>, allowed: set<DisplayId>, h: real)
    ensures BlockedScreens(a + b, allowed, h) == BlockedScreens(a, allowed, h) + BlockedScreens(b, allowed, h)
  {
    if a == [] {
      assert a + b == b;
    } else {
      assert (a + b)[1..] == a[1..] + b;
      BlockedScreensAppend(a[1..], b, allowed, h);
    }
  }

  /**
   * Exactly one entry per blocked screen, in screen order: a screen between
   * two parts of the layout contributes its own bounds, between theirs, when
   * and only when it is not allowed.
   */
  lemma BlockedScreensOrder(a: seq<Screen>, s: Screen, b: seq<Screen>, allowed: set<DisplayId>, h: real)
    ensures BlockedScreens(a + [s] + b, allowed, h)
         == BlockedScreens(a, allowed, h)
            + (if s.id in allowed then [] else [BoundsOf(s, h)])
            + BlockedScreens(b, allowed, h)
  {
    BlockedScreensAppend(a + [s], b, allowed, h);
    BlockedScreensAppend(a, [s], allowed, h);
    assert [s][1..] == [];
  }

  /** The gap below the visible frame that marks a bottom Dock (more than 10 points). */
  predicate HostsDock(s: Screen) {
    s.visibleFrame.minY - s.frame.minY > 10.0
  }

  /** `currentDockScreen`: the first screen in order that appears to host a bottom Dock. */
  function CurrentDockScreen(screens: seq<Screen>): (r: Option<Screen>)
    ensures r.None? <==> forall s :: s in screens ==> !HostsDock(s)
    ensures r.Some? ==> exists i :: 0 <= i < |screens| && screens[i] == r.value && HostsDock(r.value)
                          && forall j :: 0 <= j < i ==> !HostsDock(screens[j])
  {
    if screens == [] then None
    else if HostsDock(screens[0]) then Some(screens[0])
    else
      var r := CurrentDockScreen(screens[1..]);
      assert forall s :: s in screens ==> s == screens[0] || s in screens[1..];
      assert r.Some? ==> exists i :: 1 <= i < |screens| && screens[i] == r.value && HostsDock(r.value)
                          && forall j :: 0 <= j < i ==> !HostsDock(screens[j]) by {
        if r.Some? {
          var k :| 0 <= k < |screens[1..]| && screens[1..][k] == r.value && HostsDock(r.value)
                   && forall j :: 0 <= j < k ==> !HostsDock(screens[1..][j]);
          assert forall j :: 0 <= j < k + 1 ==> !HostsDock(screens[j]) by {
            forall j | 0 <= j < k + 1 ensures !HostsDock(screens[j]) {
              if j > 0 { assert screens[j] == screens[1..][j - 1]; }
            }
          }
        }
      }
      r
  }
}

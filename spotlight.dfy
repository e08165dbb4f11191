/**
 * The page-wide spotlight: one mousemove listener on the window that moves a
 * radial light to the pointer and writes a proximity glow onto every card of
 * its container. The glow intensity falls off linearly from 1 at a card's
 * centre to 0 at the spotlight radius.
 *
 * Math.hypot is not modelled as a computation: each card's distance is an
 * input, constrained to be the Euclidean distance from the pointer to the
 * card's centre (IsDistance).
 */
module Spotlight {

  import opened Geometry

  /** Opacity target of the spotlight element while the pointer moves. */
  const SpotlightOpacity: real := 0.25

  /** d is the Euclidean length of the vector (dx, dy). */
  predicate IsDistance(d: real, dx: real, dy: real) {
    d >= 0.0 && d * d == dx * dx + dy * dy
  }

  /** Glow intensity at distance d for radius r: 1 - d / r strictly inside the radius, else 0. */
  function Intensity(d: real, r: real): (i: real)
    requires d >= 0.0
    ensures d >= r ==> i == 0.0
    ensures d < r ==> i * r == r - d
  {
    if d < r then 1.0 - d / r else 0.0
  }

  /** The intensity is a fraction: it lies in [0, 1]. */
  lemma IntensityBounds(d: real, r: real)
    requires d >= 0.0
    ensures 0.0 <= Intensity(d, r) <= 1.0
  {
  }

  /** Full intensity exactly at the centre of a card, for a positive radius. */
  lemma IntensityOne(d: real, r: real)
    requires d >= 0.0
    ensures Intensity(d, r) == 1.0 <==> d == 0.0 && r > 0.0
  {
    if d < r && Intensity(d, r) == 1.0 {
      assert r - d == r;
    }
  }

  /** A card glows at all exactly when it is strictly within the radius; at d == r it is dark. */
  lemma IntensityPositive(d: real, r: real)
    requires d >= 0.0
    ensures Intensity(d, r) > 0.0 <==> d < r
  {
  }

  /** The farther the card, the weaker its glow. */
  lemma IntensityMonotone(d1: real, d2: real, r: real)
    requires 0.0 <= d1 <= d2
    ensures Intensity(d2, r) <= Intensity(d1, r)
  {
    if d2 < r {
      var i1, i2 := Intensity(d1, r), Intensity(d2, r);
      assert (i1 - i2) * r == d2 - d1;
    }
  }

  /** Comparing the distance with the radius is comparing squared lengths. */
  lemma WithinRadius(d: real, dx: real, dy: real, r: real)
    requires IsDistance(d, dx, dy) && r > 0.0
    ensures d < r <==> dx * dx + dy * dy < r * r
  {
    if d < r {
      SquareLess(d, r);
    } else {
      SquareLess(r, d);
    }
  }

  /** Squaring is monotone on the non-negative reals. */
  lemma SquareLess(a: real, b: real)
    requires 0.0 <= a <= b
    ensures a * a <= b * b
    ensures a < b ==> a * a < b * b
  {
    assert b * b - a * a == (b - a) * (b + a);
    if a < b {
      assert (b - a) * (b + a) > 0.0 by {
        assert b - a > 0.0 && b + a > 0.0;
      }
    } else {
      assert (b - a) * (b + a) == 0.0;
    }
  }

  /** The glow state written to one card. Positions are percentages of the card. */
  datatype Glow = Glow(intensity: real, x: real, y: real)

  /** The glow of a card with rectangle rect for a pointer at (px, py) at distance d from the card's centre. */
  function GlowFor(rect: Rect, px: real, py: real, d: real, r: real): (g: Glow)
    requires Proper(rect) && IsDistance(d, px - CenterX(rect), py - CenterY(rect))
    ensures g.intensity == Intensity(d, r) && 0.0 <= g.intensity <= 1.0
    ensures g.intensity > 0.0 <==> d < r
    ensures g.x * rect.width == 100.0 * (px - rect.left) && g.y * rect.height == 100.0 * (py - rect.top)
    ensures Inside(rect, px, py) ==> 0.0 <= g.x <= 100.0 && 0.0 <= g.y <= 100.0
  {
    IntensityBounds(d, r);
    IntensityPositive(d, r);
    Glow(Intensity(d, r), Percent(px - rect.left, rect.width), Percent(py - rect.top, rect.height))
  }

  /** At the card's centre the glow is full (for a positive radius) and sits at 50% / 50%. */
  lemma GlowAtCenter(rect: Rect, r: real)
    requires Proper(rect) && r > 0.0
    ensures GlowFor(rect, CenterX(rect), CenterY(rect), 0.0, r) == Glow(1.0, 50.0, 50.0)
  {
    var g := GlowFor(rect, CenterX(rect), CenterY(rect), 0.0, r);
    assert CenterX(rect) - rect.left == rect.width / 2.0;
    assert CenterY(rect) - rect.top == rect.height / 2.0;
  }

  /** A card element of the container: its geometry and the glow custom properties written on it. */
  class CardElement {
    const rect: Rect
    var glow: Glow

    constructor (r: Rect)
      ensures rect == r && glow == Glow(0.0, 0.0, 0.0)
    {
      rect := r;
      glow := Glow(0.0, 0.0, 0.0);
    }
  }

  /** The inputs the loop needs about the cards: proper rectangles and each card's true distance. */
  predicate CardsMeasured(rects: seq<Rect>, px: real, py: real, dists: seq<real>) {
    && |dists| == |rects|
    && forall k :: 0 <= k < |rects| ==>
         Proper(rects[k]) && IsDistance(dists[k], px - CenterX(rects[k]), py - CenterY(rects[k]))
  }

  function Rects(cards: seq<CardElement>): (rs: seq<Rect>)
    reads set k | 0 <= k < |cards| :: cards[k]
    ensures |rs| == |cards| && forall k :: 0 <= k < |cards| ==> rs[k] == cards[k].rect
  {
    seq(|cards|, k requires 0 <= k < |cards| reads cards => cards[k].rect)
  }

  /**
   * The forEach over the container's cards: every card receives the glow of
   * its own rectangle and the pointer, and nothing else changes.
   */
  method UpdateCards(cards: seq<CardElement>, px: real, py: real, dists: seq<real>, radius: real)
    requires forall i, j :: 0 <= i < j < |cards| ==> cards[i] != cards[j]
    requires CardsMeasured(Rects(cards), px, py, dists)
    modifies set k | 0 <= k < |cards| :: cards[k]
    ensures forall k :: 0 <= k < |cards| ==>
              cards[k].glow == GlowFor(cards[k].rect, px, py, dists[k], radius)
  {
    var i := 0;
    while i < |cards|
      invariant 0 <= i <= |cards|
      invariant forall k :: 0 <= k < i ==>
                  cards[k].glow == GlowFor(cards[k].rect, px, py, dists[k], radius)
    {
      var el := cards[i];
      el.glow := GlowFor(el.rect, px, py, dists[i], radius);
      i := i + 1;
    }
  }

  /** One spotlight instance and its window listener. */
  class GlobalSpotlight {
    var isMounted: bool
    var enabled: bool
    var radius: real
    /** Not yet unmounted. */
    var alive: bool
    /** Mousemove listeners this instance has on the window. */
    var listeners: nat
    /** Whether the spotlight element is rendered (the component renders nothing when disabled). */
    var hasSpotlight: bool
    /** Animation targets of the spotlight element. */
    var spotX: real
    var spotY: real
    var spotOpacity: real

    /**
     * A listener is registered exactly when the instance is alive, mounted and
     * enabled, and never more than one; while alive, the spotlight element is
     * rendered exactly when the spotlight is enabled.
     */
    ghost predicate Valid()
      reads this
    {
      && listeners <= 1
      && (listeners == 1 <==> alive && isMounted && enabled)
      && (alive ==> hasSpotlight == enabled)
    }

    /** First render: not yet mounted, no listener, the element hidden. */
    constructor (en: bool, r: real)
      ensures Valid() && enabled == en && radius == r && alive && !isMounted
      ensures listeners == 0 && hasSpotlight == en
      ensures spotX == 0.0 && spotY == 0.0 && spotOpacity == 0.0
    {
      isMounted := false;
      enabled := en;
      radius := r;
      alive := true;
      listeners := 0;
      hasSpotlight := en;
      spotX, spotY, spotOpacity := 0.0, 0.0, 0.0;
    }

    /**
     * The listener effect re-runs after a dependency changed: the previous
     * run's cleanup removes its listener and reverts the spotlight tweens of
     * its context (the element returns to its first-render targets), then the
     * guard decides whether a new listener is added.
     */
    method RerunEffect()
      requires listeners <= 1 && alive
      modifies this
      ensures listeners == (if isMounted && enabled then 1 else 0)
      ensures isMounted == old(isMounted) && enabled == old(enabled) && radius == old(radius)
      ensures alive == old(alive) && hasSpotlight == old(hasSpotlight)
      ensures old(listeners) == 1 ==> spotX == 0.0 && spotY == 0.0 && spotOpacity == 0.0
      ensures old(listeners) == 0 ==> spotX == old(spotX) && spotY == old(spotY) && spotOpacity == old(spotOpacity)
    {
      if listeners == 1 {
        listeners := listeners - 1;
        spotX, spotY, spotOpacity := 0.0, 0.0, 0.0;
      }
      if !isMounted || !enabled {
        return;
      }
      listeners := listeners + 1;
    }

    /** The mount effect sets isMounted, which re-runs the listener effect. */
    method Mount()
      requires Valid() && alive && !isMounted
      modifies this
      ensures Valid() && isMounted && alive
      ensures listeners == (if enabled then 1 else 0) && hasSpotlight == enabled
      ensures enabled == old(enabled) && radius == old(radius)
      ensures spotX == old(spotX) && spotY == old(spotY) && spotOpacity == old(spotOpacity)
    {
      isMounted := true;
      RerunEffect();
    }

    /** New props: a change of enabled or of the radius re-runs the listener effect. */
    method SetProps(en: bool, r: real)
      requires Valid() && alive
      modifies this
      ensures Valid() && enabled == en && radius == r && alive && isMounted == old(isMounted)
      ensures listeners == (if isMounted && en then 1 else 0) && hasSpotlight == en
      ensures var reverted := old(listeners) == 1 && (en != old(enabled) || r != old(radius));
        && (reverted ==> spotX == 0.0 && spotY == 0.0 && spotOpacity == 0.0)
        && (!reverted ==> spotX == old(spotX) && spotY == old(spotY) && spotOpacity == old(spotOpacity))
    {
      var changed := en != enabled || r != radius;
      enabled, radius := en, r;
      hasSpotlight := en;
      if changed {
        RerunEffect();
      }
    }

    /** Unmount: the cleanup removes the listener and reverts the spotlight tweens; the element goes away. */
    method Unmount()
      requires Valid() && alive
      modifies this
      ensures Valid() && !alive && listeners == 0 && !hasSpotlight
      ensures old(listeners) == 1 ==> spotX == 0.0 && spotY == 0.0 && spotOpacity == 0.0
    {
      if listeners == 1 {
        listeners := 0;
        spotX, spotY, spotOpacity := 0.0, 0.0, 0.0;
      }
      alive := false;
      hasSpotlight := false;
    }

    /**
     * The window listener, called for a pointer at (clientX, clientY). It
     * does nothing without the spotlight element; otherwise it moves the
     * spotlight to the pointer and, when the container is present, updates
     * every card in it. While the instance is valid and its listener is
     * registered, the element is always there; the guard is kept for a call
     * made outside that state.
     */
    method HandleMouseMove(clientX: real, clientY: real, hasContainer: bool,
                           cards: seq<CardElement>, dists: seq<real>)
      requires listeners == 1
      requires forall i, j :: 0 <= i < j < |cards| ==> cards[i] != cards[j]
      requires hasContainer ==> CardsMeasured(Rects(cards), clientX, clientY, dists)
      modifies this, set k | 0 <= k < |cards| :: cards[k]
      ensures old(Valid()) ==> Valid() && hasSpotlight
      ensures isMounted == old(isMounted) && enabled == old(enabled) && radius == old(radius)
      ensures alive == old(alive) && listeners == old(listeners) && hasSpotlight == old(hasSpotlight)
      ensures !hasSpotlight ==> spotX == old(spotX) && spotY == old(spotY) && spotOpacity == old(spotOpacity)
      ensures hasSpotlight ==> spotX == clientX && spotY == clientY && spotOpacity == SpotlightOpacity
      ensures forall k :: 0 <= k < |cards| ==>
                cards[k].glow == (if hasSpotlight && hasContainer
                                  then GlowFor(cards[k].rect, clientX, clientY, dists[k], radius)
                                  else old(cards[k].glow))
    {
      if !hasSpotlight {
        return;
      }
      spotX, spotY, spotOpacity := clientX, clientY, SpotlightOpacity;
      if hasContainer {
        UpdateCards(cards, clientX, clientY, dists, radius);
      }
    }
  }

  /**
   * A trace: an enabled spotlight is rendered, mounted, and receives one
   * pointer move; the card of its container then shows its own glow.
   */
  method MountThenMove(card: CardElement, px: real, py: real, d: real, r: real)
    requires Proper(card.rect) && IsDistance(d, px - CenterX(card.rect), py - CenterY(card.rect))
    modifies card
    ensures card.glow == GlowFor(card.rect, px, py, d, r)
  {
    var g := new GlobalSpotlight(true, r);
    g.Mount();
    assert Rects([card]) == [card.rect];
    assert g.hasSpotlight;
    var cards := [card];
    g.HandleMouseMove(px, py, true, cards, [d]);
    assert cards[0] == card;
  }
}

/**
 * The hover-reactive "bento" card: pointer-proportional tilt and magnetic
 * offset, a border glow that follows the pointer, and a particle emitter that
 * runs while the card is hovered.
 *
 * The values handed to the animation library are modelled as the target
 * fields of the card; the library's tweening towards them is not. Timers are
 * an explicit set of live timers of this card, fired one at a time by the
 * caller, so an event trace is a sequence of method calls.
 */
module BentoCard {

  import opened Options
  import opened Geometry

  /** Default number of particles per hover. */
  const DefaultParticleCount: int := 12

  /** Milliseconds between two staggered emissions of one hover. */
  const EmissionStagger: nat := 100

  /** Maximum tilt, in degrees, reached at the card's edges. */
  const MaxTilt: real := 5.0

  /** Magnetic pull per pixel of displacement from the centre. */
  const MagnetFactor: real := 0.02

  /** A footer button: a label, an optional click handler and an optional link. */
  datatype CardAction = CardAction(buttonLabel: string, hasOnClick: bool, href: Option<string>)

  /** The primary action, if present, followed by the additional ones. */
  function AllActions(action: Option<CardAction>, additionalActions: seq<CardAction>): (r: seq<CardAction>)
    ensures |r| == |additionalActions| + (if action.Some? then 1 else 0)
    ensures action.Some? ==> r[0] == action.value && r[1..] == additionalActions
    ensures action.None? ==> r == additionalActions
  {
    match action
    case Some(a) => [a] + additionalActions
    case None => additionalActions
  }

  /** The actions footer is rendered only when there is an action to show. */
  predicate ShowsFooter(action: Option<CardAction>, additionalActions: seq<CardAction>) {
    |AllActions(action, additionalActions)| > 0
  }

  lemma FooterShown(action: Option<CardAction>, additionalActions: seq<CardAction>)
    ensures ShowsFooter(action, additionalActions) <==> action.Some? || additionalActions != []
  {
  }

  /** A pair of reals: a rotation (rotateX, rotateY) or an offset (x, y). */
  datatype Vec = Vec(x: real, y: real)

  /**
   * Tilt targets for a pointer at (x, y) relative to a w-by-h card:
   * rotateX = -5 (y - cy) / cy and rotateY = 5 (x - cx) / cx.
   */
  function Tilt(x: real, y: real, w: real, h: real): (t: Vec)
    requires w > 0.0 && h > 0.0
    ensures t.x * h == MaxTilt * (h - 2.0 * y)
    ensures t.y * w == MaxTilt * (2.0 * x - w)
  {
    var cx := w / 2.0;
    var cy := h / 2.0;
    Vec(((y - cy) / cy) * -MaxTilt, ((x - cx) / cx) * MaxTilt)
  }

  /** Inside the card, both tilt angles stay within plus or minus 5 degrees. */
  lemma TiltBounded(x: real, y: real, w: real, h: real)
    requires w > 0.0 && h > 0.0
    requires 0.0 <= x <= w && 0.0 <= y <= h
    ensures -MaxTilt <= Tilt(x, y, w, h).x <= MaxTilt
    ensures -MaxTilt <= Tilt(x, y, w, h).y <= MaxTilt
  {
    UnitRatio(h - 2.0 * y, h);
    UnitRatio(2.0 * x - w, w);
  }

  /** A displacement of at most e, scaled by MaxTilt / e, stays within plus or minus MaxTilt. */
  lemma UnitRatio(a: real, e: real)
    requires e > 0.0 && -e <= a <= e
    ensures -MaxTilt <= MaxTilt * (a / e) <= MaxTilt
  {
    assert -1.0 <= a / e <= 1.0;
  }

  /** The card tilts towards the pointer: each angle is zero exactly on the centre line and has the displacement's sign. */
  lemma TiltSign(x: real, y: real, w: real, h: real)
    requires w > 0.0 && h > 0.0
    ensures Tilt(x, y, w, h).y == 0.0 <==> x == w / 2.0
    ensures Tilt(x, y, w, h).y > 0.0 <==> x > w / 2.0
    ensures Tilt(x, y, w, h).x == 0.0 <==> y == h / 2.0
    ensures Tilt(x, y, w, h).x > 0.0 <==> y < h / 2.0
  {
  }

  /** Magnetic offset targets: 0.02 times the pointer's displacement from the centre. */
  function Magnet(x: real, y: real, w: real, h: real): (m: Vec)
    ensures m.x * 100.0 == 2.0 * x - w && m.y * 100.0 == 2.0 * y - h
    ensures 0.0 <= x <= w ==> -w / 100.0 <= m.x <= w / 100.0
    ensures 0.0 <= y <= h ==> -h / 100.0 <= m.y <= h / 100.0
  {
    Vec((x - w / 2.0) * MagnetFactor, (y - h / 2.0) * MagnetFactor)
  }

  /** The number of emissions one hover schedules: the for loop runs max(particleCount, 0) times. */
  function Budget(particleCount: int): (n: nat)
    ensures particleCount >= 0 ==> n == particleCount
    ensures particleCount < 0 ==> n == 0
  {
    if particleCount > 0 then particleCount else 0
  }

  /** Timer ids start, start + 1, ..., start + n - 1, in scheduling order. */
  function IdRange(start: nat, n: nat): (ids: seq<nat>)
    ensures |ids| == n
    ensures forall k :: 0 <= k < n ==> ids[k] == start + k
  {
    seq(n, k requires 0 <= k => start + k)
  }

  /** The emissions of one hover: timer start + i fires after i * 100 ms. */
  function Emissions(start: nat, n: nat): (m: map<nat, nat>)
    ensures forall id :: id in m <==> start <= id < start + n
    ensures forall id :: id in m ==> m[id] == EmissionStagger * (id - start)
    decreases n
  {
    if n == 0 then map[] else Emissions(start, n - 1)[start + n - 1 := EmissionStagger * (n - 1)]
  }

  /** One hover schedules exactly n distinct emissions. */
  lemma {:induction false} EmissionsSize(start: nat, n: nat)
    ensures |Emissions(start, n)| == n
  {
    if n > 0 {
      EmissionsSize(start, n - 1);
      assert start + (n - 1) !in Emissions(start, n - 1);
    }
  }

  /**
   * The for loop of one hover's batch: timer i, with id start + i, is
   * scheduled after i * 100 ms and its id appended to the tracked list.
   */
  method ScheduleEmissions(timeouts: seq<nat>, start: nat, n: nat) returns (ids: seq<nat>, pending: map<nat, nat>)
    ensures ids == timeouts + IdRange(start, n)
    ensures pending == Emissions(start, n)
  {
    ids, pending := timeouts, map[];
    var i := 0;
    while i < n
      invariant 0 <= i <= n
      invariant ids == timeouts + IdRange(start, i)
      invariant pending == Emissions(start, i)
    {
      var timeoutId := start + i;
      pending := pending[timeoutId := EmissionStagger * i];
      ids := ids + [timeoutId];
      assert IdRange(start, i + 1) == IdRange(start, i) + [timeoutId];
      i := i + 1;
    }
  }

  /** After a batch, every live emission is tracked, every id is below the next one, and n timers are live. */
  lemma BatchTracked(timeouts: seq<nat>, start: nat, n: nat)
    requires forall k :: 0 <= k < |timeouts| ==> timeouts[k] < start
    ensures var ids := timeouts + IdRange(start, n);
      && (forall id :: id in Emissions(start, n) ==> id in ids)
      && (forall k :: 0 <= k < |ids| ==> ids[k] < start + n)
      && |Emissions(start, n)| == n
  {
    var ids := timeouts + IdRange(start, n);
    EmissionsSize(start, n);
    forall id | id in Emissions(start, n) ensures id in ids {
      assert ids[|timeouts| + (id - start)] == id;
    }
  }

  /** A particle of the registry, at (x, y) relative to the card. */
  datatype Particle = Particle(x: real, y: real)

  datatype CardProps = CardProps(enableTilt: bool, enableMagnetism: bool, enableParticles: bool, particleCount: int)

  function DefaultProps(): (p: CardProps)
    ensures p.enableTilt && p.enableMagnetism && p.enableParticles && p.particleCount == 12
  {
    CardProps(true, true, true, DefaultParticleCount)
  }

  /** The particle a firing emission creates from two random numbers in [0, 1). */
  function Spawn(rect: Rect, rx: real, ry: real): (p: Particle)
    requires Proper(rect) && 0.0 <= rx < 1.0 && 0.0 <= ry < 1.0
    ensures 0.0 <= p.x < rect.width && 0.0 <= p.y < rect.height
  {
    assert rx * rect.width < 1.0 * rect.width;
    assert ry * rect.height < 1.0 * rect.height;
    Particle(rx * rect.width, ry * rect.height)
  }

  /** One mounted card, from mount to unmount. */
  class Card {
    const props: CardProps
    /** The card's bounding rectangle (taken as fixed while it is mounted). */
    const rect: Rect
    /** Whether the listeners are registered. */
    var mounted: bool
    var isHovered: bool
    var particlesInitialized: bool
    /** Ids of the emission timers scheduled since the last clear. */
    var timeouts: seq<nat>
    /** The card's timers the browser has not yet fired and nobody cleared: id to delay in ms. */
    var live: map<nat, nat>
    /** The id the next setTimeout returns. */
    var nextId: nat
    /** The particle registry. */
    var particles: seq<Particle>
    /** Animation targets for the card's rotation and translation. */
    var rotation: Vec
    var offset: Vec
    /** Glow CSS variables: position in percent of the card, and intensity. */
    var glow: Vec
    var glowIntensity: real

    /** The bookkeeping invariant: tracked timers, fresh ids, the particle budget and particle bounds. */
    ghost predicate Tracked()
      reads this
    {
      && Proper(rect)
      && (forall id :: id in live ==> id in timeouts)
      && (forall k :: 0 <= k < |timeouts| ==> timeouts[k] < nextId)
      && |particles| + |live| <= Budget(props.particleCount)
      && (forall k :: 0 <= k < |particles| ==>
            0.0 <= particles[k].x <= rect.width && 0.0 <= particles[k].y <= rect.height)
    }

    /** Between events: an unhovered card has no particle and no pending emission. */
    ghost predicate Valid()
      reads this
    {
      Tracked() && (!isHovered ==> particles == [] && live == map[])
    }

    /** Mounting registers the three listeners; nothing is hovered, scheduled or emitted. */
    constructor (p: CardProps, r: Rect)
      requires Proper(r)
      ensures Valid() && props == p && rect == r
      ensures mounted && !isHovered && !particlesInitialized
      ensures timeouts == [] && live == map[] && particles == []
      ensures rotation == Vec(0.0, 0.0) && offset == Vec(0.0, 0.0) && glowIntensity == 0.0
    {
      props := p;
      rect := r;
      mounted := true;
      isHovered := false;
      particlesInitialized := false;
      timeouts := [];
      live := map[];
      nextId := 1;
      particles := [];
      rotation := Vec(0.0, 0.0);
      offset := Vec(0.0, 0.0);
      glow := Vec(0.0, 0.0);
      glowIntensity := 0.0;
    }

    /**
     * Cancels every tracked emission timer and empties the registry. The
     * particles' exit animations are not modelled: they leave the registry at
     * once, before they leave the page.
     */
    method ClearAllParticles()
      requires Tracked()
      modifies this`timeouts, this`live, this`particles
      ensures timeouts == [] && live == map[] && particles == []
      ensures Valid()
    {
      var remaining := live;
      var i := 0;
      while i < |timeouts|
        invariant 0 <= i <= |timeouts|
        invariant forall id :: id in remaining <==> id in live && id !in timeouts[..i]
      {
        remaining := remaining - {timeouts[i]};
        i := i + 1;
      }
      assert timeouts[..i] == timeouts;
      assert remaining.Keys == {};
      live := remaining;
      timeouts := [];
      particles := [];
    }

    /**
     * Schedules the hover's emissions, provided the card is still hovered:
     * max(particleCount, 0) timers, the i-th after i * 100 ms, each id
     * appended to the tracked list.
     */
    method AnimateParticles()
      requires Valid() && (isHovered ==> particles == [] && live == map[])
      modifies this`particlesInitialized, this`timeouts, this`live, this`nextId
      ensures Valid()
      ensures !old(isHovered) ==>
                && timeouts == old(timeouts) && live == old(live) && nextId == old(nextId)
                && particlesInitialized == old(particlesInitialized)
      ensures old(isHovered) ==>
                && particlesInitialized
                && timeouts == old(timeouts) + IdRange(old(nextId), Budget(props.particleCount))
                && live == Emissions(old(nextId), Budget(props.particleCount))
                && nextId == old(nextId) + Budget(props.particleCount)
    {
      if !isHovered {
        return;
      }
      if !particlesInitialized {
        particlesInitialized := true;
      }
      var n := Budget(props.particleCount);
      var start := nextId;
      var ids, pending := ScheduleEmissions(timeouts, start, n);
      BatchTracked(timeouts, start, n);
      timeouts, live, nextId := ids, pending, start + n;
    }

    /** mouseenter: the card is hovered and, if enabled, one batch of emissions is scheduled. */
    method Enter()
      requires Valid() && mounted && !isHovered
      modifies this`isHovered, this`particlesInitialized, this`timeouts, this`live, this`nextId
      ensures Valid() && isHovered && particles == []
      ensures props.enableParticles ==>
                && timeouts == old(timeouts) + IdRange(old(nextId), Budget(props.particleCount))
                && live == Emissions(old(nextId), Budget(props.particleCount))
                && particlesInitialized && nextId == old(nextId) + Budget(props.particleCount)
      ensures !props.enableParticles ==>
                timeouts == old(timeouts) && live == old(live) && nextId == old(nextId)
    {
      isHovered := true;
      if props.enableParticles {
        AnimateParticles();
      }
    }

    /**
     * An emission timer fires. Its callback creates a particle at a random
     * point of the card (rx, ry in [0, 1) stand for the two Math.random
     * draws) only while the card is hovered.
     */
    method Fire(id: nat, rx: real, ry: real)
      requires Valid() && id in live
      requires 0.0 <= rx < 1.0 && 0.0 <= ry < 1.0
      modifies this`live, this`particles
      ensures Valid()
      ensures live == old(live) - {id}
      ensures isHovered ==> particles == old(particles) + [Spawn(rect, rx, ry)]
      ensures !isHovered ==> particles == old(particles)
      ensures |particles| + |live| <= old(|particles| + |live|)
    {
      live := live - {id};
      if !isHovered {
        return;
      }
      particles := particles + [Spawn(rect, rx, ry)];
    }

    /**
     * mousemove at client coordinates (clientX, clientY): the glow follows the
     * pointer at full intensity; tilt and magnetism targets follow when enabled.
     */
    method Move(clientX: real, clientY: real)
      requires Valid() && mounted
      modifies this`glow, this`glowIntensity, this`rotation, this`offset
      ensures Valid()
      ensures var x, y := clientX - rect.left, clientY - rect.top;
        && glow == Vec(Percent(x, rect.width), Percent(y, rect.height))
        && glowIntensity == 1.0
        && rotation == (if props.enableTilt then Tilt(x, y, rect.width, rect.height) else old(rotation))
        && offset == (if props.enableMagnetism then Magnet(x, y, rect.width, rect.height) else old(offset))
    {
      var x := clientX - rect.left;
      var y := clientY - rect.top;
      glow := Vec(Percent(x, rect.width), Percent(y, rect.height));
      glowIntensity := 1.0;
      if props.enableTilt {
        rotation := Tilt(x, y, rect.width, rect.height);
      }
      if props.enableMagnetism {
        offset := Magnet(x, y, rect.width, rect.height);
      }
    }

    /**
     * mouseleave: no longer hovered, every pending emission cancelled, the
     * registry emptied, tilt and offset sent back to zero and the glow off.
     */
    method Leave()
      requires Valid() && mounted
      modifies this`isHovered, this`timeouts, this`live, this`particles
      modifies this`rotation, this`offset, this`glowIntensity
      ensures Valid() && !isHovered
      ensures timeouts == [] && live == map[] && particles == []
      ensures rotation == Vec(0.0, 0.0) && offset == Vec(0.0, 0.0) && glowIntensity == 0.0
    {
      isHovered := false;
      ClearAllParticles();
      rotation := Vec(0.0, 0.0);
      offset := Vec(0.0, 0.0);
      glowIntensity := 0.0;
    }

    /** Unmount: the listeners are removed and the particles cleared. The hovered flag is left as it was. */
    method Unmount()
      requires Valid() && mounted
      modifies this`mounted, this`timeouts, this`live, this`particles
      ensures Valid() && !mounted
      ensures timeouts == [] && live == map[] && particles == []
    {
      mounted := false;
      ClearAllParticles();
    }
  }
}

# Pointer-reactive effects of a portfolio landing page, in Dafny

This project models the three pieces of the landing page's visual-effects layer
that have logic of their own, leaving out rendering and animation:

- **Typewriter text cycler** (module `Typewriter`). Three state cells hold the
  displayed text, the index of the current word and the deleting flag. Each
  effect run either schedules one timer (type a character, pause and then start
  deleting, or delete a character) or moves at once to the next word, modulo
  the number of words. Step functions (`Choose`, `Apply`, `Next`, `Run`) give
  the meaning. The class `Typewriter.Typewriter` is the component with its one
  pending timer.
- **Hover card** (module `BentoCard`). Pure formulas give the tilt, the
  magnetic offset and the footer actions. The class `BentoCard.Card` models
  the hover lifecycle:
  - the hovered flag;
  - the tracked emission-timer ids;
  - the card's live browser timers;
  - the particle registry;
  - the animation targets and glow variables.

  An event trace is a sequence of calls to `Enter`, `Leave`, `Fire`, `Move`
  and `Unmount`.
- **Global spotlight** (module `Spotlight`). `Intensity` is the proximity
  glow: `1 - d/r` strictly inside the radius and 0 from the radius on.
  `GlowFor` is a card's glow state. `UpdateCards` is the per-card loop. The
  class `GlobalSpotlight` covers the window-listener lifecycle and the
  mousemove handler.

Module `Geometry` holds the card rectangle, its centre and `Percent`. Both
glow positions use `Percent`. Module `Options` holds the optional value.
Coordinates and intensities are Dafny `real`s, which are exact.

The card invariant `Card.Valid` says that an unhovered card has no particle
and no live emission timer. So the leave handler's cancellation alone already
ensures that nothing is emitted after leave. The callback's own hovered check
(client/components/BentoCard.tsx:111) is a second guard. `Card.Fire` states
its effect as well, but under `Card.Valid` a live timer implies a hovered
card, so that branch of its contract is never reached.

Timers, randomness and `Math.hypot` enter as inputs:
- `Fire(id, rx, ry)` fires a live timer, with `rx` and `ry` standing for the
  two `Math.random()` draws in `[0, 1)`.
- The spotlight receives each card's distance together with the fact
  `IsDistance`, which says that the distance squared is the squared Euclidean
  displacement.

## Model

| member | source | states |
|---|---|---|
| `Typewriter.DefaultConfig` | client/components/TypewriterEffect.tsx:16-18 | Default props: typing 50 ms, deleting 30 ms, pause 2000 ms |
| `Typewriter.Choose` | client/components/TypewriterEffect.tsx:28-51 | The four branches and their exact conditions, each an if-and-only-if: type while short, pause once the text has reached the word's length, delete while non-empty, wrap when empty |
| `Typewriter.DelayOf` | client/components/TypewriterEffect.tsx:30-50 | A timer is scheduled for every step except the wrap to the next word, which is immediate |
| `Typewriter.Apply` | client/components/TypewriterEffect.tsx:32-49 | Performing the chosen step keeps the invariant: index in range and text a prefix of the current word |
| `Typewriter.Next` | client/components/TypewriterEffect.tsx:24-54 | One tick preserves the prefix-and-index invariant |
| `Typewriter.Run` | client/components/TypewriterEffect.tsx:24-54 | Any number of ticks preserves the invariant |
| `Typewriter.TypingTick` | client/components/TypewriterEffect.tsx:30-33 | Typing makes the text one character longer, still a prefix of the word and an extension of the old text; flag and index unchanged; delay typingSpeed |
| `Typewriter.PauseTick` | client/components/TypewriterEffect.tsx:34-38 | A fully typed word switches to deleting with text and index unchanged, after delayBetweenWords |
| `Typewriter.DeletingTick` | client/components/TypewriterEffect.tsx:42-45 | Deleting removes exactly the last character; flag and index unchanged; delay deletingSpeed |
| `Typewriter.WrapTick` | client/components/TypewriterEffect.tsx:46-50 | An empty deleting state goes to the next word modulo the list length, typing again, with no timer |
| `Typewriter.TypingPhase` | client/components/TypewriterEffect.tsx:28-33 | From any prefix, typing reaches the whole word in exactly the missing number of ticks |
| `Typewriter.DeletingPhase` | client/components/TypewriterEffect.tsx:41-45 | From any prefix, deleting reaches the empty text in exactly its length of ticks |
| `Typewriter.RunAdditive` | client/components/TypewriterEffect.tsx:24-54 | i ticks followed by j ticks are i + j ticks |
| `Typewriter.FullCycle` | client/components/TypewriterEffect.tsx:24-54 | From ("", i, typing), the text equals word i after exactly the word's length of ticks; after 2 times that length plus 2 ticks the state is ("", (i+1) mod n, typing) |
| `Typewriter.Typewriter.constructor` | client/components/TypewriterEffect.tsx:20-22 | Mounting starts mounted, with empty text, index 0, typing and no timer; the word list must be non-empty |
| `Typewriter.Typewriter.RunEffect` | client/components/TypewriterEffect.tsx:24-54 | The cleanup clears the previous timer. The effect then schedules exactly one timer for the chosen step with its delay, or performs the wrap at once with no timer. At most one timer is ever pending |
| `Typewriter.Typewriter.Unmount` | client/components/TypewriterEffect.tsx:53 | On unmount the last effect run's cleanup clears the pending timer and the instance is no longer mounted. No step can follow, because RunEffect and Tick require a mounted instance and FireTimeout a pending timer |
| `Typewriter.Typewriter.FireTimeout` | client/components/TypewriterEffect.tsx:31-45 | The pending timer's callback performs the step in the current state, giving Next of the old state; no timer remains |
| `Typewriter.Typewriter.Tick` | client/components/TypewriterEffect.tsx:24-54 | Effect plus firing: the new state is Next of the old one and the returned delay is that step's delay, or none for the wrap |
| `Geometry.Percent` | client/components/BentoCard.tsx:196-197 | The glow percentage p satisfies p times extent = 100 times offset; it lies in [0,100] for an offset inside the extent and is 50 at the middle |
| `Geometry.CenterX` | client/components/GlobalSpotlight.tsx:54 | The centre is equidistant from the left and right edges |
| `Geometry.CenterY` | client/components/GlobalSpotlight.tsx:55 | The centre is equidistant from the top and bottom edges |
| `BentoCard.AllActions` | client/components/BentoCard.tsx:71 | The primary action, if present, comes first, followed by exactly the additional actions; otherwise the list is the additional actions |
| `BentoCard.FooterShown` | client/components/BentoCard.tsx:282 | The footer is rendered if and only if there is a primary action or a non-empty additional list |
| `BentoCard.Tilt` | client/components/BentoCard.tsx:203-206 | rotateX times h = 5(h - 2y) and rotateY times w = 5(2x - w), i.e. -5(y-cy)/cy and 5(x-cx)/cx |
| `BentoCard.TiltBounded` | client/components/BentoCard.tsx:205-206 | For a pointer inside the card both tilt angles lie in [-5, 5] |
| `BentoCard.UnitRatio` | client/components/BentoCard.tsx:205-206 | A displacement of at most the half-extent, scaled by 5 over it, lies in [-5, 5] |
| `BentoCard.TiltSign` | client/components/BentoCard.tsx:205-206 | Each angle is 0 exactly on the centre line and takes the sign of the pointer's displacement: the card tilts toward the pointer |
| `BentoCard.Magnet` | client/components/BentoCard.tsx:218-220 | The offset is 0.02 times the displacement from the centre, so its magnitude is at most 1% of the card's size for a pointer inside it |
| `BentoCard.Budget` | client/components/BentoCard.tsx:109 | The emission loop runs particleCount times, or 0 times for a negative count |
| `BentoCard.Emissions` | client/components/BentoCard.tsx:110-146 | A hover's live timers are exactly ids start to start+n-1, timer start+i firing after i*100 ms |
| `BentoCard.EmissionsSize` | client/components/BentoCard.tsx:109-148 | One hover schedules exactly n distinct emissions |
| `BentoCard.ScheduleEmissions` | client/components/BentoCard.tsx:109-148 | The loop appends the ids of the n new timers, in order, to the tracked list and schedules timer i after i*100 ms |
| `BentoCard.DefaultProps` | client/components/BentoCard.tsx:55-58 | Defaults: tilt, magnetism and particles on, 12 particles |
| `BentoCard.Spawn` | client/components/BentoCard.tsx:113-114 | A new particle lies within [0,width) x [0,height) |
| `BentoCard.Card.constructor` | client/components/BentoCard.tsx:61-65 | A mounted card starts unhovered, with no timers, no particles, and neutral targets |
| `BentoCard.Card.ClearAllParticles` | client/components/BentoCard.tsx:80-96 | Every tracked timer is cancelled; tracked list, live timers and registry end empty; nothing else changes |
| `BentoCard.Card.AnimateParticles` | client/components/BentoCard.tsx:98-149 | No-op when not hovered. Otherwise it marks the particles initialised, appends exactly Budget(particleCount) fresh ids and makes them live with delays i*100 |
| `BentoCard.Card.Enter` | client/components/BentoCard.tsx:156-167 | Sets hovered. With particles enabled it marks the particles initialised and schedules exactly particleCount staggered emissions, appending their ids and advancing the next id by that count; with particles disabled it schedules none |
| `BentoCard.Card.Fire` | client/components/BentoCard.tsx:110-118 | The fired timer leaves the live set. Exactly one particle inside the card is appended if hovered, none otherwise. Registry plus pending never grows, so it stays within particleCount |
| `BentoCard.Card.Move` | client/components/BentoCard.tsx:187-229 | Glow at the pointer's percentage position with intensity 1. Tilt targets are set only if tilt is enabled, magnet targets only if magnetism is; timers and particles are unchanged |
| `BentoCard.Card.Leave` | client/components/BentoCard.tsx:169-185 | Unhovered, no tracked or live timers (so no later emission), empty registry, rotation and offset (0,0,0,0), glow intensity 0 |
| `BentoCard.Card.Unmount` | client/components/BentoCard.tsx:235-240 | Listeners removed, all timers cancelled, registry empty; the hovered flag is left as it was |
| `Spotlight.Intensity` | client/components/GlobalSpotlight.tsx:58-61 | Exactly 0 when d is at least r (including d == r); otherwise intensity times r = r - d |
| `Spotlight.IntensityBounds` | client/components/GlobalSpotlight.tsx:58-61 | For d of at least 0, the intensity lies in [0, 1] |
| `Spotlight.IntensityOne` | client/components/GlobalSpotlight.tsx:58-61 | The intensity is 1 if and only if d = 0 and r > 0 |
| `Spotlight.IntensityPositive` | client/components/GlobalSpotlight.tsx:58-61 | The intensity is positive if and only if d < r |
| `Spotlight.IntensityMonotone` | client/components/GlobalSpotlight.tsx:58-61 | The intensity is non-increasing in the distance |
| `Spotlight.WithinRadius` | client/components/GlobalSpotlight.tsx:56-59 | For the true Euclidean distance, d < r if and only if the squared displacement is below r squared |
| `Spotlight.GlowFor` | client/components/GlobalSpotlight.tsx:52-68 | A card's glow: intensity is exactly `Intensity(d, r)`, in [0,1], positive exactly within the radius; position is 100 times the pointer offset over the card size, within [0,100] when the pointer is on the card |
| `Spotlight.GlowAtCenter` | client/components/GlobalSpotlight.tsx:54-66 | At the card's centre the glow is (1, 50%, 50%) |
| `Spotlight.UpdateCards` | client/components/GlobalSpotlight.tsx:48-70 | Every card in the container receives exactly the glow of its own rectangle and the pointer |
| `Spotlight.GlobalSpotlight.constructor` | client/components/GlobalSpotlight.tsx:12-105 | First render: not mounted, no listener; the spotlight element exists exactly when enabled, at opacity 0 |
| `Spotlight.GlobalSpotlight.RerunEffect` | client/components/GlobalSpotlight.tsx:25-84 | The cleanup removes the previous listener and reverts the spotlight tweens to the first-render targets. Afterwards exactly one listener exists if mounted and enabled, none otherwise |
| `Spotlight.GlobalSpotlight.Mount` | client/components/GlobalSpotlight.tsx:21-26 | Mounting happens once. Afterwards the listener exists if and only if the spotlight is enabled, the element exists exactly then, and the spotlight targets are unchanged |
| `Spotlight.GlobalSpotlight.SetProps` | client/components/GlobalSpotlight.tsx:84-86 | After new props the listener exists if and only if the spotlight is mounted and enabled, never more than one; the element exists exactly when enabled. The spotlight targets revert to 0 exactly when a registered listener's effect re-runs because enabled or the radius changed; otherwise they are kept |
| `Spotlight.GlobalSpotlight.Unmount` | client/components/GlobalSpotlight.tsx:80-83 | Unmounting leaves no listener and no element, and reverts the spotlight tweens of a registered listener |
| `Spotlight.GlobalSpotlight.HandleMouseMove` | client/components/GlobalSpotlight.tsx:30-76 | Does nothing without the spotlight element. Otherwise the spotlight targets the pointer at opacity 0.25, and every card gets its own glow only when the container exists; otherwise no card changes. A valid instance with its listener registered always has the element |
| `Spotlight.MountThenMove` | client/components/GlobalSpotlight.tsx:21-70 | Rendering an enabled spotlight, mounting it and moving the pointer gives the container's card exactly its own glow |

## Left out

- Animation-library tweens: durations, easing, `overwrite`, `transformPerspective`, floating drift, pulsing, and the particles' shrink-out exit. Only the target values handed to the library are modelled. As in the source, a cleared particle leaves the registry at once; its DOM element, which waits for the exit animation before removal, is not modelled.
- `toFixed(2)` rounding of the intensity, the CSS percentage strings, and IEEE floating point in general. The model uses exact reals.
- `Math.hypot`: each card's distance is an input constrained by `IsDistance`.
- `Math.random`: random values are inputs in `[0, 1)`. The random drift and rotation of particles are not modelled.
- Real timer timing and browser event dispatch. Timers are explicit, and the caller chooses which live timer fires next.
- A `words` prop that changes mid-cycle. The typewriter's prefix invariant is stated for a fixed word list, and the constructor requires a non-empty list. The component reads `words[0]`, and both role lists in `client/lib/i18n-context.tsx` are non-empty.
- Props other than `words` changing during a typewriter cycle.
- Prop or ref changes that make a hover card re-register its listeners before unmount.
- Typewriter.Apply: text is a Dafny `string`, a sequence of Unicode scalar values. The source's `length` and `slice` count UTF-16 code units, so a character outside the Basic Multilingual Plane takes two ticks there and shows half a surrogate pair in between; `Typewriter.FullCycle`'s tick counts hold only for words within that plane. Both role lists in `client/lib/i18n-context.tsx` are.
- Spotlight.GlobalSpotlight.constructor: the default radius of 400 is not modelled as a default; the radius is always a constructor argument.
- Typewriter.Config: speeds are non-negative integers. A negative or fractional delay passed to setTimeout is not modelled.
- BentoCard.Card.Enter: requires the card not to be hovered already. The browser sends `mouseenter` only after the pointer has been outside. Two consecutive enters would schedule two batches; that is not modelled.
- BentoCard.Card.AnimateParticles: requires an empty registry and no live timers when hovered. This always holds at its only call site, `Enter`.
- BentoCard.Card.Move: the card's rectangle is a fixed `rect` for the card's lifetime. Layout changes that move the card are not modelled.
- BentoCard.Tilt: requires a card of positive width and height. For a zero-size card the source divides by zero and gets a non-finite value, which the model does not represent. The same holds for `Geometry.Percent` and `Spotlight.GlowFor`. `BentoCard.Spawn` divides by nothing, but it also requires a proper rectangle: for a zero-size card the source places the particle at 0, which lies outside the half-open range the contract states.
- BentoCard.Budget: `particleCount` is an integer. A fractional count, which the source's loop would round up, is not modelled.
- BentoCard.Card.constructor: `cardRef` and the particle container are taken as always present once mounted; the component always renders both. The early returns for a missing element are therefore not modelled.
- Spotlight.CardElement: the card elements the spotlight writes to are separate objects from `BentoCard.Card`. Both components write `--glow-intensity` on the same DOM element, and that interference is not modelled.
- Spotlight.GlobalSpotlight.Mount: requires an instance that is not yet mounted. The mount effect has no dependencies and runs once per instance (client/components/GlobalSpotlight.tsx:21-23).
- Spotlight.GlobalSpotlight.HandleMouseMove: the `try`/`catch` is not modelled, because no modelled operation can throw.
- The red-green-blue glow colour strings and the other presentation code: headings, terminal dots, buttons and links.
- `client/components/PixelTrail.tsx` is not part of this model. Its decay buffer lives in a library hook whose source is not available; the rest is a shader and canvas setup.
- The other pages and components, the build configuration and the image-conversion scripts. They are presentation, configuration or file I/O.

# Animation core of the landing page, in Dafny

This project models the four animation components of a React landing page that hold logic,
and proves what they promise.

- **Circuit lines** (`circuit_lines.dfy`) is a background of random axis-aligned walks.
  - `generatePath` draws `density` paths. Each path has a random start point inside the canvas and 3 to 6 segments.
  - Each segment goes right, down, left or up, with a length between half and twice the grid unit `max(w, h) / density`.
  - After every step both coordinates are clamped into the canvas.
  - Each path is written as SVG path data: one moveto, then one lineto per segment (section 8.3 "Path Data" of SVG 1.1).
  - Up to ten connection nodes are placed at random in the 800 by 600 view box.
  - A measured side of 0 falls back to 800 or 600.
- **Typing animation** (`typing_animation.dfy`) is a typewriter.
  - Each tick appends the next character of the text.
  - At the end of the text it marks itself complete and calls `onComplete` once.
- **Scroll reveal** (`scroll_reveal.dfy`) covers two components.
  - The reveal builds the hidden and visible states of an element from a direction and a distance, and targets the visible state while the element is in view.
  - The stagger container wraps each child in a fade-up item.
- **Floating elements** (`floating_elements.dfy`) covers three pieces.
  - The looping keyframes of a floating element.
  - The random parameters of the blurred background shapes.
  - The rounding class each shape kind gets.

`Math.random` is made explicit in `random.dfy`.
- A `Stream` is an infinite sequence of draws, read from a cursor.
- Every generator takes the stream and a start cursor, and the imperative ones return the cursor after their last draw.
- `ValidStream` states that every draw lies in [0, 1), as `Math.random` promises. Only the lemmas and functions that need it require it.

Coordinates and lengths are exact `real`s.

The sources differ in form, and the model follows each:
- `generatePath` mutates its variables in nested loops. It is the method `GeneratePath`, whose outer loop calls `TracePath` for the inner walk of one path. Both are proved against the specification functions `Trail`, `PathAt`, `PathDataAt` and `FieldEnd`.
- The typewriter's three pieces of React state are the fields of the class `Typewriter`, and one run of the effect body is `Tick`.
- The reveal variants, the stagger wrapping and the floating shapes are pure expressions in the source, so they are pure functions here.

## Model

| member | source | states |
|---|---|---|
| Random.Pick | src/components/animations/FloatingElements.tsx:58-59 | `Math.floor(r * k)` for a draw in [0, 1) is a valid index below `k`, and `r * k` lies in [index, index + 1) |
| Random.ScaleBelow | src/components/animations/CircuitLines.tsx:24-25 | a draw scaled by a non-negative factor `f` lies in [0, f], and below `f` when `f` is positive |
| CircuitLines.Clamp | src/components/animations/CircuitLines.tsx:52-53 | `max(0, min(hi, v))` lies in [0, hi]; it is `v` inside the range, `hi` above it and 0 below it |
| CircuitLines.Trail | src/components/animations/CircuitLines.tsx:33-56 | the start point followed by one vertex per segment: `k` segments give `k + 1` points, the first being the start |
| CircuitLines.Vertices | src/components/animations/CircuitLines.tsx:27-55 | the point each command draws to, one per command |
| CircuitLines.PathData | src/components/animations/CircuitLines.tsx:27-55 | the path data of a polyline has one command per vertex |
| CircuitLines.PathDataRoundTrip | src/components/animations/CircuitLines.tsx:27-55 | the path data of a non-empty polyline is one moveto followed only by linetos, and reading back its vertices gives the polyline |
| CircuitLines.PathDataSnoc | src/components/animations/CircuitLines.tsx:55 | adding a vertex adds exactly one lineto to that vertex at the end of the path data |
| CircuitLines.TrailSnoc | src/components/animations/CircuitLines.tsx:33-56 | one more inner-loop iteration appends the clamped step from the last vertex, drawn at the next two cursor positions |
| CircuitLines.TracePath | src/components/animations/CircuitLines.tsx:24-56 | one outer iteration: the path data built equals the path data of the walk drawn from the cursor, and exactly 3 + 2 * segments draws are used |
| CircuitLines.GeneratePath | src/components/animations/CircuitLines.tsx:19-62 | `density` paths (none when `density <= 0`); path `i` is the walk drawn from the cursor left by the `i` paths before it; the returned cursor follows the last draw |
| CircuitLines.MeasuredOr | src/components/animations/CircuitLines.tsx:69 | `rect.width \|\| 800`: a side measuring 0 becomes the fallback (800 or 600), any other measurement is kept, and a non-negative measurement gives a positive side |
| CircuitLines.Refresh | src/components/animations/CircuitLines.tsx:66-71 | the effect generates `density` paths on the measured canvas, with 800 / 600 replacing a side that measured 0 |
| CircuitLines.FallbackCanvas | src/components/animations/CircuitLines.tsx:19-69 | after the fallback a non-negative measured canvas has positive sides, so the grid unit is positive |
| CircuitLines.Markers | src/components/animations/CircuitLines.tsx:119-123 | `paths.slice(0, 10).map(...)`: `min(10, \|paths\|)` nodes, each placed by two fresh draws scaled to the 800 by 600 view box |
| CircuitLines.MarkersInViewBox | src/components/animations/CircuitLines.tsx:119-123 | each node lies in [0, 800) by [0, 600), whatever the paths are |
| CircuitLines.SegmentsRange | src/components/animations/CircuitLines.tsx:31 | `3 + floor(4 r)` lies in [3, 6] |
| CircuitLines.DirectionRange | src/components/animations/CircuitLines.tsx:34 | `floor(4 r)` is one of the four directions 0..3 |
| CircuitLines.StepLengthRange | src/components/animations/CircuitLines.tsx:35 | the step length lies in [gridSize / 2, 2 * gridSize) |
| CircuitLines.StepShape | src/components/animations/CircuitLines.tsx:34-53 | a clamped step from a point in the canvas stays in the canvas and moves only along the drawn axis, in the drawn sense, by at most the drawn length, and by exactly that length when the target is inside |
| CircuitLines.TrailPrefix | src/components/animations/CircuitLines.tsx:33-56 | the first `m` segments of a walk do not depend on how many follow |
| CircuitLines.TrailStep | src/components/animations/CircuitLines.tsx:33-56 | vertex `j + 1` of a walk is the clamped step from vertex `j` with the draws at `2j` and `2j + 1` |
| CircuitLines.TrailInCanvas | src/components/animations/CircuitLines.tsx:52-53 | a walk that starts in the canvas never leaves it |
| CircuitLines.StartInCanvas | src/components/animations/CircuitLines.tsx:24-25 | the start point lies in [0, w) by [0, h) |
| CircuitLines.PathHasFourToSevenPoints | src/components/animations/CircuitLines.tsx:31-33 | every path has 4 to 7 points |
| CircuitLines.PathInCanvas | src/components/animations/CircuitLines.tsx:24-53 | every point of every path lies in [0, w] by [0, h], and its start in [0, w) by [0, h) |
| CircuitLines.TrailAxisStep | src/components/animations/CircuitLines.tsx:34-53 | every segment of a walk that starts in the canvas is an axis step with its drawn direction and length |
| CircuitLines.PathIsAxisWalk | src/components/animations/CircuitLines.tsx:21-53 | segment `j` of a path changes at most one coordinate, in the drawn direction, by at most its drawn length, which lies in [gridSize / 2, 2 * gridSize); the draws are at offsets `3 + 2j` and `3 + 2j + 1` |
| CircuitLines.DrawsPerPath | src/components/animations/CircuitLines.tsx:24-35 | a path uses exactly 3 + 2 * segments draws |
| CircuitLines.FieldDraws | src/components/animations/CircuitLines.tsx:23-35 | `n` paths use between 9n and 15n draws |
| CircuitLines.CommandLetters | src/components/animations/CircuitLines.tsx:27-55 | the text of a moveto holds one `M` and no `L` and starts with `M`; that of a lineto holds one `L` and no `M` |
| CircuitLines.PathTextLetters | src/components/animations/CircuitLines.tsx:27-55 | written out with a formatter that prints no command letter, the path string starts with its only `M` and holds one `L` per segment |
| CircuitLines.PathDataShape | src/components/animations/CircuitLines.tsx:19-62 | what is pushed for a path is 4 to 7 commands, a moveto then linetos, drawn through exactly the points of the walk, all inside the canvas |
| Typing.Typewriter.constructor | src/components/animations/TypingAnimation.tsx:19-21 | initial state: nothing shown, index 0, not complete, no callback yet |
| Typing.Typewriter.Tick | src/components/animations/TypingAnimation.tsx:23-35 | keeps `displayText == text[..currentIndex]`; while a character remains it appends exactly `text[currentIndex]` and advances by one; at the end it completes and fires `onComplete`, which happens exactly once and only at index `\|text\|`; once complete nothing changes |
| Typing.Run | src/components/animations/TypingAnimation.tsx:19-35 | after `t` ticks the text shown is `text[..min(t, \|text\|)]`; it is complete exactly after more than `\|text\|` ticks, and the callback has fired once then and never before; for an empty text the first tick completes with nothing shown |
| ScrollReveal.RevealVariants | src/components/animations/ScrollReveal.tsx:31-43 | the visible state is always opaque, in place and at full size; the hidden state is always transparent, at scale 0.8 for `scale` and at full size otherwise |
| ScrollReveal.RevealTravels | src/components/animations/ScrollReveal.tsx:34-35 | the element travels `distance` in its direction: the hidden y offset is `distance` for up and `-distance` for down, the x offset `distance` for left and `-distance` for right; scale and fade do not move it |
| ScrollReveal.DefaultRevealRises | src/components/animations/ScrollReveal.tsx:18-43 | with the default direction `up` and distance 50 the element starts transparent 50 pixels low at full size and rises 50 pixels into place |
| ScrollReveal.HiddenOffsetsOneAxis | src/components/animations/ScrollReveal.tsx:34-36 | the hidden state is offset on at most one axis, y only for up/down, x only for left/right; the scale differs from 1 exactly for `scale` |
| ScrollReveal.FadeOnlyOpacity | src/components/animations/ScrollReveal.tsx:32-43 | for `fade` the hidden and visible states differ only in opacity |
| ScrollReveal.OppositeDirections | src/components/animations/ScrollReveal.tsx:34-35 | up by `d` equals down by `-d`, and left by `d` equals right by `-d` |
| ScrollReveal.VisibleIffInView | src/components/animations/ScrollReveal.tsx:50 | the animated state is the visible one exactly when the element is in view |
| ScrollReveal.Container | src/components/animations/ScrollReveal.tsx:82-90 | the container is transparent when hidden, opaque when visible, and staggers its children by `staggerDelay` |
| ScrollReveal.ContainerShownIffInView | src/components/animations/ScrollReveal.tsx:82-104 | the container animates to full opacity exactly when it is in view, and to opacity 0 exactly when it is not |
| ScrollReveal.StaggerItem | src/components/animations/ScrollReveal.tsx:92-98 | an item starts transparent at y = 20 and ends opaque at y = 0 |
| ScrollReveal.WrapChildren | src/components/animations/ScrollReveal.tsx:108-119 | one item per child |
| ScrollReveal.Children | src/components/animations/ScrollReveal.tsx:108-119 | the children in a list of items, one per item |
| ScrollReveal.WrapEachChildOnce | src/components/animations/ScrollReveal.tsx:108-119 | each child is wrapped exactly once and in order: unwrapping gives the children back, item `i` has key `i` (so keys are distinct) and the stagger item states |
| FloatingElements.KeyframesLoop | src/components/animations/FloatingElements.tsx:26-28 | every track swings from `-a` to `a` and back, so it ends where it starts; x is half of y at every keyframe; the tilt is 2 degrees each way |
| FloatingElements.GeometryKeyframes | src/components/animations/FloatingElements.tsx:25-69 | background shapes float 30 pixels vertically and 15 sideways |
| FloatingElements.GeometryShapes | src/components/animations/FloatingElements.tsx:51-60 | `shapes` records (none for a negative count) with ids `0..shapes-1` in order |
| FloatingElements.ShapeInRange | src/components/animations/FloatingElements.tsx:53-57 | a record has its size in [50, 150), x and y in [0, 100), delay in [0, 2) and duration in [8, 12) |
| FloatingElements.ShapesInRange | src/components/animations/FloatingElements.tsx:51-57 | every generated record has its parameters in those ranges |
| FloatingElements.ThirdIndex | src/components/animations/FloatingElements.tsx:58-59 | `floor(3 r)` is 0, 1 or 2 exactly when `r` lies in the first, second or last third of [0, 1) |
| FloatingElements.KindAndToneByThirds | src/components/animations/FloatingElements.tsx:58-59 | circle/primary, square/secondary and triangle/accent are each chosen exactly by one third of their draw |
| FloatingElements.ShapeUsesOwnDraws | src/components/animations/FloatingElements.tsx:51-59 | record `i` depends only on its own block of seven draws |
| FloatingElements.RoundingClassOf | src/components/animations/FloatingElements.tsx:80-82 | the class is `rounded-lg` exactly for squares and `rounded-full` for circles and triangles |

## Left out

- Rendering, framer-motion animation and `useInView` are library behaviour and are not modelled. That covers durations, easing, delays, repeats, the path-length and opacity animations, filters, and the intersection threshold. So the stagger timing is not modelled either, only the `staggerChildren` value handed to the library.
- The random durations and repeat delays drawn while rendering the paths and markers are not modelled. Neither are the random draws' interleaving with the markers: `Markers` reads its draws from a cursor of its own.
- The `if (svgRef.current)` guard is not modelled. `Refresh` is the guarded body.
- The effect re-runs only when `density` changes, as its dependency list says; a window resize does not regenerate the paths.
- The number formatting of coordinates inside the path string is abstract. `CommandsText` takes the formatter as a parameter. Path data is kept as a list of commands and turned into text only by `CommandsText`.
- IEEE double arithmetic is not modelled. Coordinates are exact reals, so rounding, infinities and `NaN` are out; for example `max(w, h) / 0` is never formed, because with `density <= 0` no path is drawn.
- `density` and `shapes` are modelled as integers. A fractional count would run the loops `ceil` times and give `Array.from` a floored length, and neither is modelled.
- `Math.random` is the explicit stream described above; `ValidStream` is assumed of it rather than checked.
- Typing timers (`setTimeout`, `clearTimeout`, `speed`) are not modelled. A tick is one state-changing run of the effect body: either the timeout callback that types a character, or the completion branch, which runs in the effect after the render that follows the last character and involves no timeout.
- Typing: a change of the `text` prop during the animation is not modelled; the text is a constant of the typewriter.
- Typing: the cursor blink is presentation and is not modelled.
- `Typing.Typewriter.text`: the model's characters are the UTF-16 code units of text in the Basic Multilingual Plane. `text.length` and `text[currentIndex]` count code units, so a character outside that plane takes two ticks in the source and shows half a surrogate pair after the first. Surrogate pairs are not modelled.
- `React.Children.map` is modelled on a flat list of rendered children. Its flattening of nested arrays, its skipping of empty nodes and its key prefixes are not modelled.
- The gradient colour classes of the background shapes are not modelled, and neither is their inline position and size style. Only the rounding class is.
- `MagneticCard` and the page `Index.tsx` are not part of this model. The card's behaviour lives in pointer events and spring physics of the library; the page is static composition.

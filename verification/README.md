# ProgressBar (Crafty component) — a Dafny model

This project models the `ProgressBar` component of a Crafty game-engine
plugin. The bar is a host 2D entity with two coloured child blocks. A
progress value in `(0, maxValue]` sets a filled fraction, which is mirrored
when `flipDirection` is set. The host rectangle `(x, y, w, h, z)` is then cut
into a "lower" and a "higher" block along one axis, in proportion to that
fraction. The lower block carries the filled colour and the higher block the
empty colour; a flipped bar swaps them.

Three modules:

- `Layout` (`layout.dfy`): host geometry, the axis choice and the cut into two
  blocks (`_updateBarDimension`).
- `Progress` (`progress.dfy`): the update guard and the fraction it stores
  (`updateBarProgress`). JavaScript numbers are `real` plus an explicit `NaN`.
  Every ordered comparison with `NaN` is false, and `!!n` is false for `0`
  and `NaN`.
- `ProgressBar` (`progressbar.dfy`): the configured bar, with its stored
  settings, fraction and coloured blocks. It covers the constructor method
  `progressBar`, `init`, the progress update, the re-layout on a host
  "Change", and the effect of any sequence of such events.

Numbers are Dafny `real`s, an idealisation of IEEE doubles. Where the code
multiplies two non-literal numbers, the model goes through `Layout.Scale`.

One quirk is modelled as written. The guard at ProgressBar.js:30 starts with
`!!val`, so the value `0` is refused even though the documentation at
ProgressBar.js:23 gives the range as `0 <= number <= maxValue`. As a result an
unflipped bar can never be set back to empty by an update.

The code never clamps the fraction: it refuses an out-of-range value and
keeps the previous state.

The doc comment at ProgressBar.js:9-10 says the blocks span horizontally if
the bar's width is at least its height. The code compares `w*f` with `h*f`
instead, so for a positive fraction the two agree, but a zero fraction
always cuts horizontally, whatever the host's shape.

## Model

| member | source | states |
|---|---|---|
| Progress.AcceptsExactly | ProgressBar.js:30-32 | an update passes the guard iff the value is a number with `0 < val <= maxValue`; `0`, NaN, negative values, values above the maximum and a NaN maximum are all refused |
| Progress.AcceptedMaximumPositive | ProgressBar.js:30-34 | whenever the guard lets a value through, the maximum is a positive number, so `val / maxValue` is defined |
| Progress.NonPositiveMaximumRejectsAll | ProgressBar.js:30-32 | with a maximum that is NaN (also how an unset maximum compares) or not positive, every update is refused |
| Progress.NewFraction | ProgressBar.js:29-36 | the stored fraction exists iff the guard accepts; unflipped it lies in (0, 1] and times the maximum gives the value; flipped it lies in [0, 1) and times the maximum gives `maxValue - val` |
| Layout.AxisChoice | ProgressBar.js:44-47 | for a positive fraction the cut is horizontal iff `w >= h`; for a zero fraction it is always horizontal |
| Layout.CutTiles | ProgressBar.js:47-57 | the two blocks tile the host: same z and origin, the higher block starts where the lower ends, the extents along the axis sum to the host's, full span across it, and the lower extent is the host extent scaled by the fraction |
| Layout.CutSizesNonNegative | ProgressBar.js:44-56 | for a fraction in [0, 1] and a host of non-negative size, no block has a negative size and the lower block is no larger than the host |
| Layout.CutEndpoints | ProgressBar.js:44-56 | fraction 0 gives a zero-width lower block and the whole host to the higher block; fraction 1 gives the whole host to the lower block and leaves a zero-size higher block |
| ProgressBar.Update | ProgressBar.js:29-38 | a refused value returns the bar unchanged; an accepted one keeps host, settings and colours, stores the fraction in range that matches `val / maxValue` (mirrored when flipped), and re-lays the blocks |
| ProgressBar.Change | ProgressBar.js:43-57 | a host geometry change keeps fraction, settings and colours and re-cuts the blocks in proportion to the fraction: they tile the new host and the lower block's extent along the split axis is the new host's extent scaled by the fraction |
| ProgressBar.ConfigureFresh | ProgressBar.js:84-94 | a bar built right after `init` satisfies the invariant, with fraction 0, the stored settings, a zero-width lower block and a higher block equal to the host; flipped, the filled-coloured block covers the whole host |
| ProgressBar.ValidBarTiles | ProgressBar.js:43-57 | the blocks of a bar in the invariant tile its host, and have non-negative sizes when the host does |
| ProgressBar.UpdatePreservesValid | ProgressBar.js:29-38 | an update keeps the invariant: fraction in [0, 1], blocks are the cut of the host, filled colour on the filled block |
| ProgressBar.ChangePreservesValid | ProgressBar.js:96 | a geometry change keeps the invariant |
| ProgressBar.RunPreservesValid | ProgressBar.js:29-60 | any sequence of progress and geometry events keeps the invariant |
| ProgressBar.RunKeepsSettings | ProgressBar.js:84-86 | no sequence of progress and geometry events changes the settings stored by the constructor method |
| ProgressBar.RejectedRunChangesNothing | ProgressBar.js:29-32 | any number of refused progress values leave the bar exactly as it was |
| ProgressBar.ValidDeterminedByHostAndFraction | ProgressBar.js:43-57 | the blocks of a bar in the invariant are a function of host geometry, settings and fraction |
| ProgressBar.ChangeToSameGeometryIsNoop | ProgressBar.js:43-60 | re-running the layout on a bar in the invariant changes nothing, fraction included |
| ProgressBar.UpdateIdempotent | ProgressBar.js:29-38 | delivering the same progress value twice gives the same bar as delivering it once |
| ProgressBar.ChangeIdempotent | ProgressBar.js:43-57 | delivering the same geometry twice gives the same bar as delivering it once |
| ProgressBar.FilledExtentTracksValue | ProgressBar.js:34-57 | after an accepted update, the extent of the filled-coloured block along the split axis is the host's extent times `val / maxValue`, flipped or not |
| ProgressBar.WideHostAtFortyPercent | ProgressBar.js:44-51 | a 100 by 25 host updated to 40 of 100 gets a lower block 40 wide and full height, and a higher block at `x + 40` that is 60 wide |

## Left out

- Entity creation, `attr`, `color`, `destroy`, `requires`/`has` and the choice between the DOM and Canvas backends (ProgressBar.js:15, 87, 90-93) are calls into the Crafty framework. The blocks are plain records here.
- The event wiring is left out: `bind("Change")`, `bind("RemoveComponent")`, `unbind` and teardown (ProgressBar.js:96-103) belong to the host's event bus. A geometry change is modelled as an explicit `Change` call. Teardown runs only when the removed component's name is `"ProgressBar"`; it unbinds the layout and destroys both blocks.
- IEEE-754 rounding and infinities are left out; numbers are `real`. Non-numeric arguments (strings, objects, `undefined` as a value) are out of scope. An unset maximum behaves like NaN in comparisons, which `NonPositiveMaximumRejectsAll` covers.
- The truthiness of a non-boolean `flipDirection` argument is not modelled; it is a `bool`.
- The chaining return values (`this` or `undefined`, ProgressBar.js:31, 40, 59, 105) carry no behaviour and are not modelled.
- Calling the constructor method a second time is only partly modelled. The model's `Configure` does keep the entity's current fraction. It does not model that the first pair of blocks leaks or that the layout gets bound twice.

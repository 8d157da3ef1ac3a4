# unMonde world grid, in Dafny

unMonde reads a set of agents, each placed at a longitude and latitude and carrying an
agreeableness score. It files every agent into one zone of a 1°×1° grid over the
whole globe and reports, per zone, the population and the mean agreeableness.
This project models the part of `model.py` that does the filing and the aggregation:

- `Position`, a longitude and latitude in degrees, read back in radians (`position.dfy`).
- `Zone`, a rectangle given by two corners, with its list of inhabitants, its
  half-open containment test, its population and its mean agreeableness (`zone.dfy`).
- The grid, which is the class-level list `Zone.ZONES` in the source. It is built lazily on
  the first lookup, one zone per degree of latitude (outer loop) and longitude
  (inner loop). The lookup turns a position into a flat index of that list in constant
  time and checks that the zone found contains the position (`grid.dfy`).
- The Python built-ins that this code relies on (`builtins.dfy`). `int()` on a float truncates
  toward zero. `sum()` is a left fold. A list subscript accepts negative indexes and
  raises IndexError outside `-n <= i < n`.

Main results, all over exact reals (see "## Left out" for what floating point changes):

- The build lays out 180 × 360 = 64,800 zones in row-major order.
- For every position the lookup succeeds exactly when the position lies in
  [-180, 180) × [-90, 90). In that case the zone it returns contains the
  position. Every other position ends in one of the two exceptions the source
  can raise, so the lookup never silently returns a wrong zone.
- Each covered position lies in exactly one zone.
- Adding an inhabitant grows the population by one, and it moves the running total of
  agreeableness (mean × population) by the newcomer's score.

Degrees-to-radians conversion: `π/180` cannot be written as a Dafny real. The
radian test therefore takes the conversion as a parameter.
`Positions.DegreesToRadians` is the source's conversion, and its contract says that
multiplying by any positive factor is strictly increasing. `Positions.RadiansAgreeWithDegrees` shows that the radian test
gives the same answer as the degree test under any strictly increasing conversion.
`Zone.Contains` compares degrees.

Out-of-range input: a design that validated its input would reject such positions
with an explicit out-of-range error. The code does not validate its input. An
out-of-range position either makes the subscript raise IndexError, or reads some zone and
fails the `assert` at `model.py:96`. Negative indexes wrap around, and `int()` truncates toward zero, so
-180.5 falls into column 0. The model follows the code. The lookup returns
`Failure(IndexError)` or `Failure(AssertionError)`, and its contract states which
one happens.

## Model

| member | source | states |
|---|---|---|
| Builtins.Trunc | model.py:89-91 | `int()` on a float truncates toward zero. For non-negative input it is the floor; for negative input it is the ceiling. |
| Builtins.ListIndex | model.py:95 | A list subscript succeeds exactly for `-n <= i < n`. It reads `i` itself or, for negative `i`, `i + n`: negative indexes count from the end. |
| Builtins.Sum | model.py:138 | Python's `sum()` as a left fold of `+` from 0, so an empty list sums to 0. |
| Builtins.SumAppend | model.py:138 | Appending a value to the list adds that value to its `sum()`. |
| Builtins.SumBounds | model.py:138 | The sum of n values that all lie in [lo, hi] lies in [n·lo, n·hi]. |
| Positions.Position.Longitude | model.py:33-37 | Under the source's conversion with factor k (π/180), the longitude in radians is degrees × k. |
| Positions.Position.Latitude | model.py:38-42 | Under the source's conversion with factor k (π/180), the latitude in radians is degrees × k. |
| Positions.DegreesToRadians | model.py:37 | The source's conversion, degrees × factor, is strictly increasing when the factor (π/180) is positive. |
| Positions.InBoxRadians | model.py:78-82 | The containment test as written, with min/max of the corners' radian coordinates. It holds only for a box of positive extent on both axes. |
| Positions.RadiansAgreeWithDegrees | model.py:78-82 | Under every strictly increasing degrees-to-radians conversion, the radian containment test agrees with the same test on degrees. |
| Positions.InBoxOrdered | model.py:78-82 | When the first corner is the lower-left one, containment is lo ≤ x < hi on both axes: closed below, open above. |
| Zones.AgreeablenessOf | model.py:138 | The list comprehension: one value per inhabitant, in order, each that inhabitant's agreeableness. |
| Zones.Zone.constructor | model.py:60-64 | A new zone keeps its two corners and has no inhabitants. |
| Zones.Zone.Contains | model.py:78-82 | The zone's test agrees with the source's radian comparison under every strictly increasing conversion, π/180 × degrees among them. |
| Zones.Zone.Population | model.py:104-107 | The population is 0 exactly when the zone has no inhabitants. The body is `len(inhabitants)`. |
| Zones.Zone.AverageAgreeableness | model.py:130-138 | An empty zone gives the neutral value 0. Otherwise mean × population equals the sum of the inhabitants' agreeableness. |
| Zones.Zone.AddInhabitant | model.py:100-102 | Appends exactly one inhabitant at the end, with no deduplication. Earlier inhabitants are unchanged, the population grows by 1, mean × population grows by the newcomer's score, and only this zone is modified. |
| Zones.AverageWithinBounds | model.py:130-138 | The mean of a non-empty zone lies between any lower and upper bound of its inhabitants' agreeableness. |
| Grid.ZoneIndex | model.py:89-92 | For a position in range, the flat index lies in [0, 64800). |
| Grid.LayoutIsRowMajor | model.py:67-74 | The zone at index i·360 + j has lower corner (-180 + j, -90 + i) and upper corner (-179 + j, -89 + i). |
| Grid.LookupFindsContainingZone | model.py:89-96 | Over exact reals: for every position in range, the computed index is in bounds and the zone there contains the position, so the assertion never fires. |
| Grid.ZoneOwnsOnlyItsPositions | model.py:67-96 | A built zone contains only positions in range, and only those whose computed index is its own. |
| Grid.CheckedLookup | model.py:89-96 | For any position, the subscript is in bounds and the containment check passes if and only if the position is in range. In that case the index read is the computed one. |
| Grid.ExactlyOneZone | model.py:67-82 | Each position in range lies in exactly one of the 64,800 zones, the one at its computed index. |
| Grid.BoundaryPolicy | model.py:67-82 | A zone contains its lower corner. The points one width east and one height north of that corner are outside it, and they belong to the neighbouring zones. |
| Grid.RejectionExamples | model.py:89-96 | (181, 0) reads an in-bounds zone that fails the containment check; (0, 91) gives an out-of-bounds subscript. |
| Grid.ZoneGrid.constructor | model.py:51 | The zone list starts empty. |
| Grid.ZoneGrid.InitializeZones | model.py:66-74 | Appends 64,800 new, empty zones after whatever the list holds, in row-major order, zone k at `LowerCorner(k)` and `UpperCorner(k)`. Earlier entries are untouched. |
| Grid.ZoneGrid.FindZoneThatContains | model.py:84-98 | Builds the list only if it is empty, so it is never rebuilt or duplicated, and its length is then 64,800. Succeeds if and only if the position is in range, returning the zone at the computed index, which contains the position. Otherwise it fails with IndexError exactly when the index is out of the list's bounds, and with AssertionError in the remaining cases. |
| Grid.LookupTwice | model.py:84-98 | Two lookups of the same position give the same outcome. The second leaves the list exactly as the first left it, which is the list held before when there was one. A success returns the zone at the computed index of that list. |

## Left out

- `main` and the JSON loading (`model.py:179-199`): file input and program entry. The agents are whatever values a caller passes.
- `BaseGraph` and `AgreeablenessGraph` (`model.py:141-176`): plotting through matplotlib, presentation only.
- `Zone.width`, `height`, `area` and `population_density` (`model.py:111-128`): floating-point arithmetic with π and the Earth's radius. They are not modelled.
- `Agent.__init__` attaches arbitrary attributes with `setattr`. Here an agent is only its position and its agreeableness, the one attribute the zone reads.
- `Agent.say_hello`: string concatenation, unrelated to the grid.
- Floating point: coordinates and scores are exact reals. The model has no rounding, NaN or infinity.
- Grid.LookupFindsContainingZone: holds over exact reals only. In IEEE doubles, the subtraction at `model.py:89-90` can round a position just below a cell edge up onto the edge. For example, longitude -1e-20 gives `180.0`, and longitude 0.9999999999999999 gives `181.0`. The index then names the next cell, the radian test at `model.py:79-82` rejects the position, and the assert at `model.py:96` fires for a position in range.
- Grid.ZoneGrid.FindZoneThatContains: its "succeeds exactly in range" holds over exact reals only. It fails with AssertionError on the in-range positions that the rounding above moves across a cell edge.
- Positions.DegreesToRadians: over reals the conversion is strictly increasing. In doubles, `x * π / 180` is only monotone, so two distinct degree values can meet in one radian value. The model does not capture this.
- The grid constants are fixed to the source's values, with 1° cells. The build's outer loop steps by one degree, not by `HEIGHT_DEGREES`. Build and lookup agree only because that constant is 1.
- Running Python with `-O` strips the `assert` at `model.py:96`. That mode is not modelled.
- `Zone.ZONES` is a class attribute shared by the whole process. Here it is the field of one `ZoneGrid` object.

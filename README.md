# Molecular integration grids (PySCF `dft.gen_grid`)

A Dafny model of how PySCF's `pyscf/dft/gen_grid.py` builds the numerical
integration grid of a molecule. It covers these parts:

- **Default resolution tables.** `_default_rad` and `_default_ang` look up
  `RAD_GRIDS` and `ANG_ORDER` by level and period, and then `LEBEDEV_ORDER`
  (module `DefaultGrids`). The constants `LEBEDEV_NGRID` and `LEBEDEV_ORDER`
  are in module `Lebedev`.
- **Pruning policies.** `sg1_prune`, `nwchem_prune`, `treutler_prune` and no
  pruning, all in module `Prune`. Each gives every radial shell an angular
  point count.
- **`gen_atomic_grids`** (module `AtomicGrids`). For each element it:
  - resolves the user's or the default `(n_rad, n_ang)`, snapping an angular
    order to its size;
  - prunes;
  - groups the shells by angular size, ascending, in chunks of 12 shells;
  - assembles the element's coordinates and raw volumes.

  The layout of these points is described by slots. A slot `(n, shell, j)` is
  the j-th point of the n-point angular rule placed on radial shell `shell`.
- **`arg_group_grids`** (module `Grouping`). It clamps integer box ids, ranks
  them the way `numpy.unique(..., return_inverse=True)` does, and sorts the
  ranks with a stable argsort.
- **`_padding_size`** (module `Padding`). It gives the number of sentinel points
  that round a grid up to the memory alignment.
- **The `Grids` object** (module `GridsObject`, class `Grids`). Its
  configuration fields are assigned through `__setattr__`. Assigning
  `atom_grid`, `atomic_radii`, `radii_adjust`, `radi_method`, `becke_scheme`,
  `prune` or `level` calls `reset` first. Its operations are:
  - `reset`;
  - `size`;
  - `build`, which tabulates the atoms, concatenates them into parallel arrays
    (coords, weights, atm_idx, quadrature_weights), sorts them by box and pads
    them;
  - `prune_by_density_`, which scales `rho` in place, keeps the points above
    `threshold / size`, re-pads and recomputes the screening mask.

Several things are taken as parameters (the `Externals` record in
`GridsObject`):

- the radial schemes;
- `MakeAngularGrid`;
- `gto.charge` and the radii tables;
- the Becke partition fraction `pbecke[ia] / sum(pbecke)`;
- the box of a point and the box counts;
- `make_mask`.

Their results carry only the shape facts the code relies on.

Two behaviours of the code that are easy to miss:

- `prune_by_density_` multiplies the caller's `rho` array in place (`rho *=
  self.weights`, gen_grid.py:597). `Grids.PruneByDensity` therefore modifies
  `rho`.
- A point whose `|rho * w|` equals the cut is dropped, because the code keeps
  only `abs(rho) > cut`.

An element with zero radial shells (`n_rad == 0` in a user table) fails with
the error `NothingToStack`. The code raises `ValueError` there, from
`numpy.vstack([])` at gen_grid.py:240. A molecule without atoms fails the same
way, from the `numpy.vstack` of no atom blocks in `get_partition`
(gen_grid.py:315).

`sg1_prune` and `nwchem_prune` read `radii[nuc]` (gen_grid.py:79, 122). An
element past the end of the radii table fails with `RadiusNotTabulated`, where
the code raises `IndexError`. `nwchem_prune` reads the radius only when
`n_ang >= 50` and `leb_l` exists, so its other outcomes come first.

## Model

| member | source | states |
|---|---|---|
| Padding.PaddingSize | pyscf/dft/gen_grid.py:656-659 | no padding when alignment <= 1; otherwise fewer than `alignment` points, and the padded count is a multiple of alignment |
| Padding.PaddingUnique | pyscf/dft/gen_grid.py:656-659 | the padding is the only count below alignment that reaches a multiple of alignment |
| Padding.PaddingIdempotent | pyscf/dft/gen_grid.py:656-659 | padding an already padded count adds nothing |
| Padding.PadSixtyOne | pyscf/dft/gen_grid.py:656-659 | 61 points at ALIGNMENT_UNIT 8 get 3 padding points, 64 in total |
| Lebedev.NwchemSizes | pyscf/dft/gen_grid.py:113 | LEBEDEV_NGRID[4:] has 29 sizes and begins 38, 50, 74, 86 |
| Types.CountBelowBrackets | pyscf/dft/gen_grid.py:624 | with increasing thresholds, `(x > tab).sum()` is k exactly when x lies in (tab[k-1], tab[k]] |
| Types.CountBelowMonotone | pyscf/dft/gen_grid.py:624 | a larger x never has fewer thresholds below it |
| DefaultGrids.Row | pyscf/dft/gen_grid.py:625 | numpy's row index for a level in [-10, 10): in range and congruent to the level modulo 10, so a non-negative level is kept and a negative one counts from the end (level + 10) |
| DefaultGrids.Period | pyscf/dft/gen_grid.py:621-624 | `(nuc > period_ends).sum()` is a column index of at most 7 (7 only past the last period, see PeriodBrackets) |
| DefaultGrids.DefaultAng | pyscf/dft/gen_grid.py:638-643 | the default angular count is always a supported Lebedev size |
| DefaultGrids.DefaultRad | pyscf/dft/gen_grid.py:621-625 | the default radial count lies between 10 and 200 shells (how it grows is in DefaultsMonotoneInCharge and Level3Defaults) |
| DefaultGrids.PeriodBrackets | pyscf/dft/gen_grid.py:621-625 | the period index is k exactly when the charge is above the (k-1)-th and at most the k-th period-closing charge |
| DefaultGrids.PeriodInRange | pyscf/dft/gen_grid.py:621-625 | the table column exists exactly for nuclear charges up to 118 |
| DefaultGrids.TablesMonotone | pyscf/dft/gen_grid.py:627-654 | RAD_GRIDS and ANG_ORDER never decrease along a row (period) |
| DefaultGrids.TablesMonotoneInLevel | pyscf/dft/gen_grid.py:627-654 | RAD_GRIDS and ANG_ORDER never decrease down a column (level) |
| DefaultGrids.DefaultsMonotoneInCharge | pyscf/dft/gen_grid.py:621-654 | at a fixed level a heavier element gets at least as many radial shells and angular points |
| DefaultGrids.Level3Defaults | pyscf/dft/gen_grid.py:389-394 | level 3 gives (50,302) for H-He, (75,302) for Li-Ne, and 80 to 105 shells with 434 points for the rest |
| Prune.PlaceBrackets | pyscf/dft/gen_grid.py:79-85 | a shell is in region k exactly when r / r_atom lies in (alpha[k-1], alpha[k]] of its element's row |
| Prune.Place | pyscf/dft/gen_grid.py:79-85 | the region of a shell is one of the five regions 0..4 |
| Prune.Sg1Prune | pyscf/dft/gen_grid.py:51-86 | fails (IndexError of radii[nuc]) exactly when the element is past the radii table; otherwise one count per shell, each one of 6, 38, 86, 194 |
| Prune.Sg1Buckets | pyscf/dft/gen_grid.py:72-86 | the SG1 count of a shell, as a function of where r / r_atom falls among the thresholds (86 both in region 2 and beyond alpha[3]) |
| Prune.IndexOf | pyscf/dft/gen_grid.py:119 | absent exactly when the size is missing, otherwise a position that holds it |
| Prune.IndexOfFirst | pyscf/dft/gen_grid.py:119 | `numpy.where(...)[0][0]` is the first position: the size does not occur before it |
| Prune.NwchemLevels | pyscf/dft/gen_grid.py:114-120 | leb_l exists unless n_ang > 50 is missing from LEBEDEV_NGRID[4:]; its five entries index that list, and entry 3 points at n_ang |
| Prune.NwchemPrune | pyscf/dft/gen_grid.py:88-131 | a successful result has one count per shell (the rest is stated by NwchemPruneFacts, NwchemBuckets, NwchemFifty) |
| Prune.LevelsAround | pyscf/dft/gen_grid.py:119-120 | [1, 3, idx-1, idx, idx-1]: entries 0 and 1 are 1 and 3, entry 3 is at n_ang and entries 2 and 4 one position below it; absent exactly when n_ang is missing |
| Prune.NwchemSizeSupported | pyscf/dft/gen_grid.py:113 | a size is in LEBEDEV_NGRID[4:] exactly when it is supported and at least 38 |
| Prune.NwchemPruneFacts | pyscf/dft/gen_grid.py:88-131 | fails exactly for an unsupported n_ang above 50 (IndexError of numpy.where) or, from 50 up, an element past the radii table (IndexError of radii[nuc]), with that error; below 50 every shell keeps n_ang; otherwise one supported size per shell |
| Prune.NwchemBuckets | pyscf/dft/gen_grid.py:118-131 | for a supported n_ang > 50 the regions get 50, 86, the size just below n_ang, n_ang, and the size just below n_ang |
| Prune.NwchemFifty | pyscf/dft/gen_grid.py:116-130 | for n_ang == 50 and a tabulated element the result exists; the innermost and outermost regions get 50 points and the other three get 74 |
| Prune.TreutlerAngs | pyscf/dft/gen_grid.py:151-155 | the first nr//3 shells get 14, those up to nr//2 get 50, the rest n_ang |
| Prune.TreutlerPrune | pyscf/dft/gen_grid.py:134-156 | filling the array slice by slice yields exactly TreutlerAngs |
| Prune.PruneAngs | pyscf/dft/gen_grid.py:220-223 | every scheme gives one count per shell; it fails exactly for an unsupported NWChem n_ang above 50 or a radius the scheme reads past its table; when n_ang is supported the only failure is the missing radius and all counts are supported sizes |
| AtomicGrids.Broadcast | pyscf/dft/gen_grid.py:193-195 | a tuple atom_grid becomes a dict with every symbol of the molecule as a key and the same pair as the value; a dict is kept as it is |
| AtomicGrids.ResolveCounts | pyscf/dft/gen_grid.py:200-215 | user counts are kept if n_ang is supported, snapped through LEBEDEV_ORDER if it is an order, and rejected otherwise; without user counts the defaults are used, or an IndexError outside the tables |
| AtomicGrids.RadWeights | pyscf/dft/gen_grid.py:218 | rad_weight[i] = 4*pi*rad[i]^2*dr[i], one per shell |
| AtomicGrids.SortedDistinct | pyscf/dft/gen_grid.py:230 | `sorted(set(angs))`: increasing, with the same members as angs |
| AtomicGrids.IndicesOf | pyscf/dft/gen_grid.py:232 | `numpy.where(angs == n)`: increasing, and holds exactly the shells with n points |
| AtomicGrids.ChunkEnd | pyscf/dft/gen_grid.py:235 | a chunk of `lib.prange(0, len(idx), 12)` is non-empty and ends within idx; every chunk but the last has exactly 12 shells, the last at most 12 |
| AtomicGrids.ChunkSlotsAt | pyscf/dft/gen_grid.py:235-239 | `einsum('i,jk->jik')` order: chunk position j*len(shells)+i holds row j of the angular rule on shell shells[i], angular row major and radial shell minor, in a chunk of m*len(shells) points |
| AtomicGrids.ChunkSlotsMembers | pyscf/dft/gen_grid.py:235-239 | every point of a chunk is for that angular size, one of the chunk's shells and a row of the rule |
| AtomicGrids.GroupSlotsFacts | pyscf/dft/gen_grid.py:235-239 | the chunks of one angular size hold n points for each of its shells: every row j < n of every shell is a slot, there are n * len(idx) slots, and each one is for that size, one of its shells and a row below n |
| AtomicGrids.LayoutWellFormed | pyscf/dft/gen_grid.py:230-239 | every slot of an element's layout names a shell with that angular size and a row of that rule, and the slots go by ascending angular size |
| AtomicGrids.LayoutSize | pyscf/dft/gen_grid.py:227-240 | an element has sum(angs) points |
| AtomicGrids.AssembleChunks | pyscf/dft/gen_grid.py:235-239 | the chunk loop for one angular size produces the coordinates and volumes of that size's slots |
| AtomicGrids.AssembleElement | pyscf/dft/gen_grid.py:227-240 | the loop over sizes produces the coordinates and volumes of the whole layout |
| AtomicGrids.ElementShellsFacts | pyscf/dft/gen_grid.py:200-223 | resolving the counts fails with its own error; otherwise the shells exist exactly when the pruning scheme finds the radius it reads, and fail with RadiusNotTabulated when not; one supported size for each of the n_rad shells |
| AtomicGrids.ElementGrid | pyscf/dft/gen_grid.py:216-240 | an element grid has as many coordinates as volumes, and an element with no shells fails (ValueError of numpy.vstack([])) |
| AtomicGrids.ElementGridSize | pyscf/dft/gen_grid.py:216-240 | an element's grid exists exactly when it has shells; it has as many coordinates as volumes, sum(angs) of them, and at least one per shell |
| AtomicGrids.BuildElement | pyscf/dft/gen_grid.py:200-240 | building one element yields exactly `ElementGrid`: its grid, or the resolution, pruning or empty-stack error |
| AtomicGrids.GenAtomicGrids | pyscf/dft/gen_grid.py:184-241 | the loop over atoms yields exactly `AtomGridsTable` for the broadcast atom_grid |
| AtomicGrids.TabKeys | pyscf/dft/gen_grid.py:196-200 | the table's keys are the symbols of the atoms visited so far |
| AtomicGrids.InTabIffSeen | pyscf/dft/gen_grid.py:200 | a symbol is already tabulated exactly when an earlier atom carries it |
| AtomicGrids.TabFailure | pyscf/dft/gen_grid.py:197-212 | the loop fails exactly when some first occurrence of a symbol fails to build |
| AtomicGrids.AtomGridsTable | pyscf/dft/gen_grid.py:184-241 | a successful table is keyed by exactly the molecule's element symbols |
| AtomicGrids.AtomGridsTableFacts | pyscf/dft/gen_grid.py:184-241 | keyed by the molecule's symbols; each entry is the grid built at the symbol's first atom; fails exactly when one of those builds fails |
| Grouping.ClampAxis | pyscf/dft/gen_grid.py:363-366 | a clamped id lies in [-1, boxes]: an id below -1 becomes -1, one above boxes becomes boxes, and an id already in range is kept |
| Grouping.ClampBounds | pyscf/dft/gen_grid.py:362-366 | every clamped triple is in bounds; on each axis independently an id below -1 becomes -1, one above the box count becomes the box count, and one in range is kept |
| Grouping.Rank | pyscf/dft/gen_grid.py:367-368 | the inverse index of `numpy.unique` is 0 exactly for a point with the lexicographically smallest box (its order in RankOrder) |
| Grouping.RankOrder | pyscf/dft/gen_grid.py:367-368 | the unique-inverse ranks are equal exactly for equal triples, and ordered exactly as the triples are lexicographically |
| Grouping.StableArgSort | pyscf/dft/gen_grid.py:369 | `argsort(kind='stable')` is a permutation of the indices that orders the keys and breaks ties by index |
| Grouping.ArgGroupGrids | pyscf/dft/gen_grid.py:347-369 | the grouping order lists every point index exactly once, in range (its box order in ArgGroupGridsOrder) |
| Grouping.ArgGroupGridsOrder | pyscf/dft/gen_grid.py:347-369 | a permutation of all grid indices that orders the clamped boxes lexicographically and keeps the original order within a box |
| Grouping.BoxesContiguous | pyscf/dft/gen_grid.py:347-369 | after grouping, the points of one box are contiguous |
| GridsObject.GatherRowsAt | pyscf/dft/gen_grid.py:533-537 | fancy indexing the four arrays with the same index array moves whole rows |
| GridsObject.Realign | pyscf/dft/gen_grid.py:539-547 | padding keeps the four arrays parallel (its contents in RealignFacts) |
| GridsObject.RealignFacts | pyscf/dft/gen_grid.py:539-547 | padding keeps every existing row, appends sentinel rows (1e-4 coordinates, zero weights, atm_idx -1), makes the size a multiple of alignment with fewer than alignment additions, and does nothing when alignment <= 1 |
| GridsObject.RealignIdempotent | pyscf/dft/gen_grid.py:539-547 | padding a padded grid again changes nothing |
| GridsObject.TableCovers | pyscf/dft/gen_grid.py:524-525 | a successful table has an entry, with as many coordinates as volumes, for every atom's symbol |
| GridsObject.BlockAt | pyscf/dft/gen_grid.py:521-528 | atom ia's j-th point sits at offset(ia) + j, with atm_idx ia and quadrature weight vol[j] |
| GridsObject.PartitionCoordsAt | pyscf/dft/gen_grid.py:306-315 | the same point's coordinate is the element grid's j-th point moved to atom ia's centre |
| GridsObject.PartitionWeightsAt | pyscf/dft/gen_grid.py:306-316 | the same point's weight is vol[j] times atom ia's Becke fraction at that point |
| GridsObject.AtmIdxRange | pyscf/dft/gen_grid.py:524-528 | before padding every atm_idx names an atom |
| GridsObject.Unsorted | pyscf/dft/gen_grid.py:518-530 | the partitioned, filled arrays are parallel, with one row for each point of each atom's element grid |
| GridsObject.Grouped | pyscf/dft/gen_grid.py:518-537 | sorting keeps the arrays parallel and the number of points |
| GridsObject.FillAtomBlocks | pyscf/dft/gen_grid.py:521-530 | the slice-filling loop yields fresh atm_idx and quadrature_weights arrays equal to `AtmIdxUpTo` and `QwUpTo` over all atoms |
| GridsObject.SortedRows | pyscf/dft/gen_grid.py:532-537 | the sorted grid's rows are the unsorted rows in arg_group_grids order, a permutation, box-ordered and stable |
| GridsObject.BuildArrays | pyscf/dft/gen_grid.py:512-553 | a successful build has parallel arrays and a molecule with at least one atom |
| GridsObject.BuildArraysFacts | pyscf/dft/gen_grid.py:512-553 | build fails exactly when gen_atomic_grids does, with its error, or when the molecule has no atoms (ValueError of numpy.vstack, gen_grid.py:315); otherwise four parallel arrays, aligned, atm_idx in [-1, natm), and every -1 row a zero-weight sentinel |
| GridsObject.GroupedArrays | pyscf/dft/gen_grid.py:518-537 | partition, fill and optional sort yield exactly `Grouped`; build calls it only for a molecule with atoms |
| GridsObject.BuildGridArrays | pyscf/dft/gen_grid.py:512-547 | the imperative build pipeline yields exactly `BuildArrays`, including the failure for a molecule without atoms |
| GridsObject.PadToAlignment | pyscf/dft/gen_grid.py:539-547 | the padding step yields exactly `Realign` of its input |
| GridsObject.DensityOkNeedsPoints | pyscf/dft/gen_grid.py:595-596 | the electron-count check can only pass on a non-empty grid with a positive integrated density |
| GridsObject.DensityPrune | pyscf/dft/gen_grid.py:589-616 | a pruned result has a density of the input's length and parallel arrays (its contents in DensityPruneFacts) |
| GridsObject.KeptFacts | pyscf/dft/gen_grid.py:598-604 | boolean-mask indexing keeps exactly the flagged indices, in increasing order |
| GridsObject.DensityPruneFacts | pyscf/dft/gen_grid.py:589-616 | nothing happens exactly when threshold == 0 or the count check fails; otherwise rho becomes rho*w, the kept points are exactly those with abs(rho*w) > threshold/size, in order, and the result is their rows, padded |
| GridsObject.DensityPruneArrays | pyscf/dft/gen_grid.py:594-613 | scaling rho in place and selecting and padding the rows yield exactly `DensityPrune`, and rho is left alone when the check fails |
| GridsObject.ScaleInPlace | pyscf/dft/gen_grid.py:597 | `rho *= weights` multiplies each entry by its weight |
| GridsObject.Grids.constructor | pyscf/dft/gen_grid.py:445-486 | a new Grids object has the class defaults (nwchem pruning, treutler radii, level 3, alignment 8, mol's symmetry, empty atom_grid) and no cached arrays |
| GridsObject.Grids.Reset | pyscf/dft/gen_grid.py:561-571 | mol is replaced only when one is given; all six caches are cleared, so size is 0 |
| GridsObject.Grids.Size | pyscf/dft/gen_grid.py:488-490 | the size of a built grid is the length of each of its four arrays |
| GridsObject.Grids.SetAttr | pyscf/dft/gen_grid.py:492-496 | the attribute is assigned; the seven grid-defining keys clear the caches first, and the other keys leave them as they were |
| GridsObject.Grids.Assign | pyscf/dft/gen_grid.py:496 | a plain assignment changes that attribute and nothing else |
| GridsObject.Grids.Build | pyscf/dft/gen_grid.py:512-555 | on failure (gen_atomic_grids, or a molecule without atoms) nothing changes; on success the caches hold the built arrays and a mask only when with_non0tab is set, with screen_index == non0tab; the configuration, and self.mol too when another mol is passed, is unchanged |
| GridsObject.Grids.Store | pyscf/dft/gen_grid.py:529-553 | the caches hold the given arrays and mask |
| GridsObject.Grids.PruneByDensity | pyscf/dft/gen_grid.py:589-616 | threshold 0 or a failed count check changes nothing; otherwise rho is scaled in place and the caches hold the pruned, padded arrays and a fresh mask |

## Left out

- Becke partition numerics. `original_becke`, `stratmann`, the radii-adjust functions and `VXCgen_grid` (gen_grid.py:164-182, 258-302) are not modelled. The fraction `pbecke[ia] / pbecke.sum(axis=0)` is the parameter `becke`. Floating-point rounding is not modelled; weights are exact reals.
- The box of a point (gen_grid.py:352-362). The boundary, the rounding of box counts and `floor` are float-to-integer computations. They are the parameters `boxOf` and `boxes`. The model starts from integer box ids.
- `make_mask` and `make_screen_index` (gen_grid.py:320-345) are the parameter `makeMask`.
- Radial schemes and `MakeAngularGrid` are parameters. They only promise n abscissas and n weights, and an n-row rule for every supported size. `pyscf/dft/LebedevGrid.py` is not part of this model; `LEBEDEV_NGRID` and `LEBEDEV_ORDER` are restated as constants.
- Policies given as arbitrary callables are left out. This applies to `prune`, `radii_adjust`, `radi_method` and `becke_scheme`. Only the named built-in choices are modelled, and `prune=None` is `NoPruning`.
- `_load_conf` and the `__config__` overrides (gen_grid.py:371-383, 445-454). The defaults are fixed at the values the code falls back to.
- Logging, `dump_flags`, `check_sanity`, `kernel`, `to_gpu`, `stdout` and `verbose` have no effect on the grid.
- Grids.Build: the `**kwargs` forwarded to the radial scheme are not modelled. `Grids.get_partition` with `concat=False` (a per-atom list) is not modelled either.
- Assigning the cached attributes directly (`coords`, `weights`, `non0tab`, ...) through `__setattr__` is not offered. Only the configuration attributes are.
- Grids.PruneByDensity: `rho` is one-dimensional. It requires a built grid of matching length when the threshold is non-zero; on an unbuilt grid the code raises in `numpy.dot`.
- Prune.NwchemPrune: its own contract states only the length of a result, because stating the rest there is too costly for the verifier. The failure cases and the counts are stated by `NwchemPruneFacts`, `NwchemBuckets` and `NwchemFifty`.
- Prune.RatiosDefined: a radius of exactly -1e-200 would make `r_atom` zero, and numpy's division would give `inf`. The radii tables are required not to hold that value (`ValidElements`); the real tables hold non-negative radii only.
- The int32 type of `atm_idx` is not modelled. Atom counts are small, so it never wraps.
